/**
 The actor that holds one device-login request. A turn of the actor loads the stored state, may
 replace or delete it, and answers; turns never overlap. Absent state reads back as the zero value.
 */
module DeviceLoginActor {

  // Nanoseconds, as in Go's time package
  type Time = int

  const SECOND: Time := 1_000_000_000
  const REQUEST_DURATION: Time := 300 * SECOND

  datatype Status = Unset | Pending | Approved | Denied

  datatype RequestState = RequestState(
    code: string,
    deviceTokenHash: string,
    status: Status,
    expiresAt: Time,
    ipAddress: string,
    userAgent: string,
    userID: string
  )

  const NO_STATE := RequestState("", "", Unset, 0, "", "", "")

  datatype ResultCode = Accepted | Collision | Invalid | WasDenied

  datatype Reply =
    | Reply(code: ResultCode, status: Status, expiresAt: Time, userID: string)
    | Failed  // the turn returned an error

  datatype CreateInput = CreateInput(code: string, deviceTokenHash: string, ipAddress: string, userAgent: string)

  datatype Turn = Turn(state: RequestState, reply: Reply)

  function Refuse(code: ResultCode): Reply {
    Reply(code, Unset, 0, "")
  }

  // time.Round: to the nearest second, halves up
  function RoundToSecond(t: Time): Time {
    (t + SECOND / 2) / SECOND * SECOND
  }

  predicate Live(s: RequestState, now: Time) {
    s.code != "" && s.expiresAt > now
  }

  // What each turn does to the stored state, and what it answers.

  function CreateTurn(s: RequestState, input: CreateInput, now: Time): Turn {
    if input.code == "" || input.deviceTokenHash == "" then Turn(s, Refuse(Invalid))
    else if Live(s, now) then Turn(s, Refuse(Collision))
    else
      var expiresAt := RoundToSecond(now) + REQUEST_DURATION;
      Turn(RequestState(input.code, input.deviceTokenHash, Pending, expiresAt, input.ipAddress, input.userAgent, ""),
           Reply(Accepted, Pending, expiresAt, ""))
  }

  function DecideTurn(s: RequestState, decision: string, userID: string, now: Time): Turn {
    if !Live(s, now) || s.status != Pending then Turn(s, Refuse(Invalid))
    else if decision == "deny" then Turn(s.(status := Denied), Reply(Accepted, Denied, s.expiresAt, ""))
    else if decision == "approve" then
      Turn(s.(status := Approved, userID := userID), Reply(Accepted, Approved, s.expiresAt, ""))
    else Turn(s, Failed)
  }

  // A poll never writes, so it is a function of whatever state the peek returned
  function PollReply(s: RequestState, deviceTokenHash: string, now: Time): Reply {
    if !Live(s, now) || s.deviceTokenHash != deviceTokenHash then Refuse(Invalid)
    else match s.status
      case Pending => Reply(Accepted, Pending, s.expiresAt, "")
      case Approved => if s.userID == "" then Refuse(Invalid) else Reply(Accepted, Approved, s.expiresAt, s.userID)
      case Denied => Reply(WasDenied, Denied, s.expiresAt, "")
      case Unset => Refuse(Invalid)
  }

  // The consume reply repeats the status, but not the user
  function ConsumeTurn(s: RequestState, deviceTokenHash: string, now: Time): Turn {
    var poll := PollReply(s, deviceTokenHash, now);
    Turn(if poll.code == Accepted && poll.status == Approved then NO_STATE else s, poll.(userID := ""))
  }

  class RequestActor {
    var state: RequestState

    constructor ()
      ensures state == NO_STATE
    {
      state := NO_STATE;
    }

    method Create(input: CreateInput, now: Time) returns (reply: Reply)
      modifies this
      ensures Turn(state, reply) == CreateTurn(old(state), input, now)
      ensures reply.Reply? && reply.code == Accepted <==>
        && input.code != "" && input.deviceTokenHash != "" && !(old(state).code != "" && now < old(state).expiresAt)
      ensures reply.Reply? && (reply.code == Accepted ==>
        state == RequestState(input.code, input.deviceTokenHash, Pending, state.expiresAt, input.ipAddress, input.userAgent, ""))
      ensures reply.code != Accepted ==> state == old(state)
    {
      if input.code == "" || input.deviceTokenHash == "" {
        return Refuse(Invalid);
      }
      if state.code != "" {
        if state.expiresAt > now {
          return Refuse(Collision);
        }
      }
      var expiresAt := RoundToSecond(now) + REQUEST_DURATION;
      var pending := RequestState(input.code, input.deviceTokenHash, Pending, expiresAt, input.ipAddress, input.userAgent, "");
      var ok := Persist(pending, now);
      if !ok {
        return Failed;
      }
      reply := Reply(Accepted, pending.status, pending.expiresAt, "");
    }

    method Inspect(now: Time) returns (found: bool)
      ensures found <==> Live(state, now) && state.status == Pending
    {
      found := state.code != "" && state.expiresAt > now && state.status == Pending;
    }

    method Poll(deviceTokenHash: string, now: Time) returns (reply: Reply)
      ensures reply == PollReply(state, deviceTokenHash, now)
      ensures reply.Reply? && (reply.code == Accepted && reply.status == Approved ==>
        && state.status == Approved && state.userID != "" && reply.userID == state.userID
        && state.deviceTokenHash == deviceTokenHash && now < state.expiresAt)
    {
      if state.code == "" || state.deviceTokenHash != deviceTokenHash {
        return Refuse(Invalid);
      }
      match state.status {
        case Pending =>
          if !(state.expiresAt > now) {
            return Refuse(Invalid);
          }
          return Reply(Accepted, Pending, state.expiresAt, "");
        case Approved =>
          if state.userID == "" || !(state.expiresAt > now) {
            return Refuse(Invalid);
          }
          return Reply(Accepted, Approved, state.expiresAt, state.userID);
        case Denied =>
          if !(state.expiresAt > now) {
            return Refuse(Invalid);
          }
          return Reply(WasDenied, Denied, state.expiresAt, "");
        case Unset =>
          return Refuse(Invalid);
      }
    }

    method Decide(decision: string, userID: string, now: Time) returns (reply: Reply)
      modifies this
      ensures Turn(state, reply) == DecideTurn(old(state), decision, userID, now)
      ensures reply.Reply? && reply.code == Accepted <==>
        && old(state).code != "" && now < old(state).expiresAt && old(state).status == Pending
        && (decision == "deny" || decision == "approve")
      ensures reply.Reply? && reply.code == Accepted ==>
        state == if decision == "deny" then old(state).(status := Denied) else old(state).(status := Approved, userID := userID)
      ensures !(reply.Reply? && reply.code == Accepted) ==> state == old(state)
    {
      if state.code == "" || !(state.expiresAt > now) || state.status != Pending {
        return Refuse(Invalid);
      }
      var decided := state;
      if decision == "deny" {
        decided := decided.(status := Denied);
      } else if decision == "approve" {
        decided := decided.(status := Approved, userID := userID);
      } else {
        return Failed;
      }
      var ok := Persist(decided, now);
      if !ok {
        return Failed;
      }
      reply := Reply(Accepted, decided.status, decided.expiresAt, "");
    }

    method Consume(deviceTokenHash: string, now: Time) returns (reply: Reply)
      modifies this
      ensures Turn(state, reply) == ConsumeTurn(old(state), deviceTokenHash, now)
      ensures state == if reply.Reply? && reply.code == Accepted && reply.status == Approved then NO_STATE else old(state)
      ensures reply.Reply? && (reply.code == Accepted && reply.status == Approved <==>
        && old(state).code != "" && old(state).deviceTokenHash == deviceTokenHash && now < old(state).expiresAt
        && old(state).status == Approved && old(state).userID != "")
    {
      if state.code == "" || state.deviceTokenHash != deviceTokenHash || !(state.expiresAt > now) {
        return Refuse(Invalid);
      }
      match state.status {
        case Pending =>
          return Reply(Accepted, Pending, state.expiresAt, "");
        case Denied =>
          return Reply(WasDenied, Denied, state.expiresAt, "");
        case Approved =>
          if state.userID == "" {
            return Refuse(Invalid);
          }
          var expiresAt := state.expiresAt;
          state := NO_STATE;
          return Reply(Accepted, Approved, expiresAt, "");
        case Unset =>
          return Refuse(Invalid);
      }
    }

    method Persist(next: RequestState, now: Time) returns (ok: bool)
      modifies this
      ensures ok <==> next.expiresAt > now
      ensures state == if ok then next else old(state)
    {
      var ttl := next.expiresAt - now;
      if ttl <= 0 {
        return false;
      }
      state := next;
      ok := true;
    }
  }
}
