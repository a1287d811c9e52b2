/**
 max_age of section 3.1.2.1 of OpenID Connect Core 1.0: how old a login may be. The code multiplies it
 into a 64-bit count of nanoseconds, and the product can wrap around.
 */
module MaxAge {
  import opened Common
  import opened Text
  import opened Consent
  import opened Interaction
  import opened InteractionRuns
  import opened InteractionTokens
  import opened InteractionSafety
  import opened InteractionOutcomes

  // The largest max_age whose nanoseconds fit: 292 years
  const LARGEST_MAX_AGE := 9_223_372_036

  // The login at t is too old
  predicate Due(maxAge: int, t: Time, now: Time) {
    now >= t + maxAge * SECOND
  }

  lemma WrappingLosesNothingSmall(x: int)
    requires 0 <= x
    ensures WrapInt64(x) <= x && (WrapInt64(x) == x <==> x <= INT64_MAX)
  {
  }

  /** The check means what max_age says, for every login and clock, exactly when the nanoseconds fit in 64 bits. */
  lemma MaxAgeIsRespectedExactlyWhen(raw: string, maxAge: int)
    requires raw != "" && ParseInt(raw) == Some(maxAge) && maxAge >= 0
    ensures (forall t, now :: DueByMaxAge(raw, Some(t), now) == Ok(Due(maxAge, t, now))) <==> maxAge <= LARGEST_MAX_AGE
  {
    var x := maxAge * SECOND;
    WrappingLosesNothingSmall(x);
    if maxAge > LARGEST_MAX_AGE {
      var wrapped := WrapInt64(x);
      assert DueByMaxAge(raw, Some(0), wrapped) == Ok(true) && !Due(maxAge, 0, wrapped);
    }
  }

  /** Wrapping only ever asks too often: a login older than max_age is always caught. */
  lemma AnOldLoginIsAlwaysCaught(raw: string, maxAge: int, t: Time, now: Time)
    requires raw != "" && ParseInt(raw) == Some(maxAge) && maxAge >= 0
    requires Due(maxAge, t, now)
    ensures DueByMaxAge(raw, Some(t), now) == Ok(true)
  {
  }

  /**
   The parameter is rejected exactly when it is there and no number that fits and is not negative. A login whose time
   nobody knows is too old for any max_age.
   */
  lemma MaxAgeIsRejectedExactlyWhen(raw: string, authenticatedAt: Option<Time>, now: Time)
    ensures DueByMaxAge(raw, authenticatedAt, now).Err? <==>
      raw != "" && (ParseInt(raw).None? || ParseInt(raw).value < 0)
    ensures raw != "" && DueByMaxAge(raw, None, now).Ok? ==> DueByMaxAge(raw, None, now) == Ok(true)
    ensures DueByMaxAge("", authenticatedAt, now) == Ok(false)
  {
  }

  lemma DigitsSnoc(s: string, c: char)
    requires AllDigits(s) && IsDigit(c)
    ensures AllDigits(s + [c]) && DigitsValue(s + [c]) == 10 * DigitsValue(s) + (c as int - '0' as int)
  {
  }

  lemma FirstFiveDigits()
    ensures AllDigits("92233") && DigitsValue("92233") == 92233
  {
    assert AllDigits("") && DigitsValue("") == 0;
    hide DigitsValue, AllDigits;
    DigitsSnoc("", '9');
    assert "" + ['9'] == "9";
    DigitsSnoc("9", '2');
    assert "9" + ['2'] == "92";
    DigitsSnoc("92", '2');
    assert "92" + ['2'] == "922";
    DigitsSnoc("922", '3');
    assert "922" + ['3'] == "9223";
    DigitsSnoc("9223", '3');
    assert "9223" + ['3'] == "92233";
  }

  lemma LastFiveDigits()
    ensures AllDigits("9223372037") && DigitsValue("9223372037") == 9_223_372_037
  {
    FirstFiveDigits();
    hide DigitsValue, AllDigits;
    DigitsSnoc("92233", '7');
    assert "92233" + ['7'] == "922337";
    DigitsSnoc("922337", '2');
    assert "922337" + ['2'] == "9223372";
    DigitsSnoc("9223372", '0');
    assert "9223372" + ['0'] == "92233720";
    DigitsSnoc("92233720", '3');
    assert "92233720" + ['3'] == "922337203";
    DigitsSnoc("922337203", '7');
    assert "922337203" + ['7'] == "9223372037";
  }

  /** One second over the limit, and a login made this very moment counts as too old. */
  lemma AFreshLoginCanBeRefused()
    ensures DueByMaxAge("9223372037", Some(0), 0) == Ok(true) && !Due(9_223_372_037, 0, 0)
  {
    LastFiveDigits();
    hide DigitsValue, AllDigits;
    assert ParseInt("9223372037") == Some(9_223_372_037);
  }

  /** A request granted at once, without a proof, was made by a login that is not older than its max_age. */
  lemma ImmediateGrantRespectsMaxAge(clients: Clients, env: Env, t: Tables, req: Request, now: Time, maxAge: int)
    requires AuthorizeAuthenticated(clients, env, t, req, None, now).Ok?
    requires AuthorizeAuthenticated(clients, env, t, req, None, now).value.answer.Granted?
    requires !AuthorizeAuthenticated(clients, env, t, req, None, now).value.consumed
    requires Param(req.params, "max_age") != "" && ParseInt(Param(req.params, "max_age")) == Some(maxAge)
    ensures maxAge >= 0 && req.caller.authenticatedAt.Some? && !Due(maxAge, req.caller.authenticatedAt.value, now)
  {
    FreshRequestExactly(clients, env, t, req, now);
    MaxAgeParsesForAll(req.params, req.caller.authenticatedAt, now);
    hide AuthorizeAuthenticated, IsAllowed, IsUsable, OwesConsent, IsGrantable, HasAuthorized, Fields, ParseInt;
    assert !OwesLogin(clients, req.Query(), req.caller.authenticatedAt, now);
    assert DueByMaxAge(Param(req.params, "max_age"), req.caller.authenticatedAt, now) == Ok(false);
    WrappingLosesNothingSmall(maxAge * SECOND);
  }

  lemma FreshLoginIsNotDue(w: World, userID: string, binding: nat, raw: string, maxAge: int)
    requires FreshLogin(w, userID, binding, raw) && raw != "" && ParseInt(raw) == Some(maxAge)
    ensures maxAge >= 0 && exists l :: l in w.logins && l.userID == userID && l.binding == binding
                                       && !Due(maxAge, l.authenticatedAt, l.at)
  {
    var l :| l in w.logins && l.userID == userID && l.binding == binding
             && DueByMaxAge(raw, Some(l.authenticatedAt), l.at) == Ok(false);
    WrappingLosesNothingSmall(maxAge * SECOND);
    assert !Due(maxAge, l.authenticatedAt, l.at);
  }

  /**
   In every run, a grant of a request with max_age, resumed or not, rests on a proof used up in its binding, or
   on a login of its user that was no older than that when the binding looked at it.
   */
  lemma EveryGrantRespectsMaxAge(clients: Clients, now: Time, consents: Rows, actions: seq<Action>, n: nat, maxAge: int)
    requires n < |Run(clients, Start(now, consents), actions).grants|
    requires
      var raw := Param(Run(clients, Start(now, consents), actions).grants[n].req.params, "max_age");
      raw != "" && ParseInt(raw) == Some(maxAge)
    ensures
      var w := Run(clients, Start(now, consents), actions);
      var g := w.grants[n];
      || Proven(w, Proof(g.userID, g.ticket, g.binding))
      || (maxAge >= 0 && exists l :: l in w.logins && l.userID == g.userID && l.binding == g.binding
                                     && !Due(maxAge, l.authenticatedAt, l.at))
  {
    EveryGrantIsJustified(clients, now, consents, actions);
    var w := Run(clients, Start(now, consents), actions);
    var g := w.grants[n];
    assert Vouched(clients, w, g.req.Query(), Proof(g.userID, g.ticket, g.binding)) by {
      assert Justified(clients, w, g);
      hide Vouched, Run;
    }
    hide Run, Justified, LoginDemanded, FreshLogin, ParseInt;
    if !Proven(w, Proof(g.userID, g.ticket, g.binding)) {
      FreshLoginIsNotDue(w, g.userID, g.binding, Param(g.req.params, "max_age"), maxAge);
    }
  }
}
