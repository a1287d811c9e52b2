/**
 The actor that holds one user's outstanding email-verification token. It keeps one state, which
 issue and restore may set and consume, discard and cancel may delete.
 */
module EmailVerificationActor {
  import opened Common

  type Time = int

  datatype State = State(tokenHash: string, email: string, replacesEmail: string, expiresAt: Time)

  // What an absent state reads back as
  const NO_STATE := State("", "", "", 0)

  datatype EmailChange = EmailChange(email: string, expiresAt: Time)

  predicate Usable(s: State, tokenHash: string, now: Time) {
    s.tokenHash != "" && s.tokenHash == tokenHash && s.expiresAt >= now
  }

  // A state that has already expired is not written, and what was there stays
  function Stored(old_: State, next: State, now: Time): State {
    if next.expiresAt > now then next else old_
  }

  function Restored(current: State, held: State, now: Time): State {
    if current.tokenHash != "" then current else Stored(current, held, now)
  }

  function Discarded(s: State, tokenHash: string): State {
    if s.tokenHash != "" && s.tokenHash == tokenHash then NO_STATE else s
  }

  function Cancelled(s: State): State {
    if s.replacesEmail == "" then s else NO_STATE
  }

  class VerificationActor {
    var state: State

    constructor ()
      ensures state == NO_STATE
    {
      state := NO_STATE;
    }

    // An unexpired token for another address than the current one is a pending change
    method PendingChange(now: Time) returns (change: Option<EmailChange>)
      ensures change == if state.replacesEmail != "" && state.expiresAt >= now
                        then Some(EmailChange(state.email, state.expiresAt)) else None
    {
      if state.replacesEmail == "" || state.expiresAt < now {
        return None;
      }
      change := Some(EmailChange(state.email, state.expiresAt));
    }

    method Issue(next: State, now: Time)
      modifies this
      ensures state == Stored(old(state), next, now)
      ensures state == if next.expiresAt > now then next else old(state)
    {
      SetState(next, now);
    }

    // On success the caller alone holds the token: the actor has forgotten it
    method Consume(tokenHash: string, now: Time) returns (taken: Option<State>)
      modifies this
      ensures taken == if Usable(old(state), tokenHash, now) then Some(old(state)) else None
      ensures state == if taken.Some? then NO_STATE else old(state)
      ensures taken.Some? <==> tokenHash != "" && old(state).tokenHash == tokenHash && now <= old(state).expiresAt
    {
      if state.tokenHash == "" || state.expiresAt < now || state.tokenHash != tokenHash {
        return None;
      }
      taken := Some(state);
      state := NO_STATE;
    }

    method Discard(tokenHash: string)
      modifies this
      ensures state == Discarded(old(state), tokenHash)
      ensures old(state).tokenHash != tokenHash ==> state == old(state)
      ensures tokenHash != "" ==> state.tokenHash != tokenHash
    {
      if state.tokenHash == "" || state.tokenHash != tokenHash {
        return;
      }
      state := NO_STATE;
    }

    method CancelChange()
      modifies this
      ensures state == Cancelled(old(state))
      ensures state.replacesEmail == ""
      ensures old(state).replacesEmail == "" ==> state == old(state)
    {
      if state.replacesEmail == "" {
        return;
      }
      state := NO_STATE;
    }

    method Restore(held: State, now: Time)
      modifies this
      ensures state == Restored(old(state), held, now)
      ensures old(state).tokenHash != "" ==> state == old(state)
      ensures old(state).tokenHash == "" && held.expiresAt > now ==> state == held
    {
      if state.tokenHash != "" {
        return;
      }
      SetState(held, now);
    }

    method SetState(next: State, now: Time)
      modifies this
      ensures state == Stored(old(state), next, now)
      ensures next.expiresAt <= now ==> state == old(state)
      ensures next.expiresAt > now ==> state == next
    {
      var ttl := next.expiresAt - now;
      if ttl <= 0 {
        return;
      }
      state := next;
    }
  }
}
