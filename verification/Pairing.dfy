/**
 Registering a pairing code through a cold start of the server.

 Times are milliseconds. The server is any function from the number of the
 attempt to how long the request takes to settle, at most until its abort, and
 what comes of it. A sleep takes the time asked for.
 */
module Pairing {
  import opened Basics

  const WAKE_BUDGET_MS := 100_000
  const ABORT_MS := 25_000
  const SLEEP_MS := 4_000

  type Duration = d: nat | d <= ABORT_MS

  /** The body of a refusal: what `res.json()` gave. */
  datatype Detail = NotJson | JsonNull | Json(error: Option<string>)

  datatype Reply =
    | Accepted(pairingId: string)
    | AcceptedUnreadable(message: string)
    | Answered(status: nat, detail: Detail)   // any answer that is not ok
    | Unreachable(message: string)            // no connection, or aborted

  datatype Attempt = Attempt(settlesAfter: Duration, reply: Reply)

  datatype Problem = NoProblem | HttpStatus(status: nat) | Message(text: string)

  datatype Result =
    | Paired(pairingId: string)
    | Refused(status: nat, error: Option<string>)
    | CouldNotReach(problem: Problem)

  /** The result, how many requests were sent, how often `onWaking` was called, and when it was over. */
  datatype Outcome = Outcome(result: Result, sent: nat, wakings: nat, finished: int)

  const TYPE_ERROR := "Cannot read properties of null (reading 'error')"

  predicate Waking(status: nat) {
    status == 502 || status == 503 || status == 504
  }

  /** What ends the loop, if the reply does. */
  function Ends(reply: Reply): Option<Result> {
    match reply
    case Accepted(id) => Some(Paired(id))
    case Answered(status, detail) =>
      if Waking(status) || detail.JsonNull? then None
      else Some(Refused(status, if detail.Json? then detail.error else None))
    case _ => None
  }

  /** What is remembered of a reply that does not end it. */
  function ProblemOf(reply: Reply): Problem {
    match reply
    case Accepted(_) => NoProblem
    case AcceptedUnreadable(message) => Message(message)
    case Answered(status, _) => if Waking(status) then HttpStatus(status) else Message(TYPE_ERROR)
    case Unreachable(message) => Message(message)
  }

  /** The loop from attempt `k` at time `now`. */
  function Registered(server: nat -> Attempt, k: nat, now: int, deadline: int, last: Problem): Outcome
    decreases deadline - now
  {
    if now >= deadline then Outcome(CouldNotReach(last), k, k, now)
    else
      var attempt := server(k);
      var settled := now + attempt.settlesAfter;
      var ends := Ends(attempt.reply);
      if ends.Some? then Outcome(ends.value, k + 1, k, settled)
      else Registered(server, k + 1, settled + SLEEP_MS, deadline, ProblemOf(attempt.reply))
  }

  function Register(server: nat -> Attempt, start: int): Outcome {
    Registered(server, 0, start, start + WAKE_BUDGET_MS, NoProblem)
  }

  method RegisterPairing(server: nat -> Attempt, start: int) returns (outcome: Outcome)
    ensures outcome == Register(server, start)
  {
    var deadline := start + WAKE_BUDGET_MS;
    var lastProblem := NoProblem;
    var now, sent, wakings := start, 0, 0;
    while now < deadline
      invariant wakings == sent
      invariant Registered(server, sent, now, deadline, lastProblem) == Register(server, start)
      decreases deadline - now
    {
      var attempt := server(sent);
      sent := sent + 1;
      now := now + attempt.settlesAfter;
      match attempt.reply {
        case Accepted(id) =>
          return Outcome(Paired(id), sent, wakings, now);
        case AcceptedUnreadable(message) =>
          lastProblem := Message(message);
        case Answered(status, detail) =>
          if status != 502 && status != 503 && status != 504 {
            match detail {
              case JsonNull => lastProblem := Message(TYPE_ERROR);
              case NotJson => return Outcome(Refused(status, None), sent, wakings, now);
              case Json(error) => return Outcome(Refused(status, error), sent, wakings, now);
            }
          } else {
            lastProblem := HttpStatus(status);
          }
        case Unreachable(message) =>
          lastProblem := Message(message);
      }
      wakings := wakings + 1;
      now := now + SLEEP_MS;
    }
    outcome := Outcome(CouldNotReach(lastProblem), sent, wakings, now);
  }

  // ---------------------------------------------------------- main statements

  /** From attempt `k` on: bounds on the number of requests and on the time, whatever the server does. */
  lemma {:induction false} RegisteredInTime(server: nat -> Attempt, k: nat, now: int, deadline: int, last: Problem)
    requires SLEEP_MS * k <= now - deadline + WAKE_BUDGET_MS
    requires now < deadline + ABORT_MS + SLEEP_MS
    ensures var o := Registered(server, k, now, deadline, last);
      && SLEEP_MS * (o.sent - 1) <= Max(now, deadline - 1) - deadline + WAKE_BUDGET_MS
      && now <= o.finished < deadline + ABORT_MS + SLEEP_MS
    decreases deadline - now
  {
    if now < deadline && Ends(server(k).reply).None? {
      RegisteredInTime(server, k + 1, now + server(k).settlesAfter + SLEEP_MS, deadline, ProblemOf(server(k).reply));
    }
  }

  /** At most 25 requests, and over in less than 129 seconds. */
  lemma AtMost25RequestsUnder129Seconds(server: nat -> Attempt, start: int)
    ensures 1 <= Register(server, start).sent <= 25
    ensures start <= Register(server, start).finished < start + 129_000
  {
    RegisteredInTime(server, 0, start, start + WAKE_BUDGET_MS, NoProblem);
    RegisteredStops(server, 0, start, start + WAKE_BUDGET_MS, NoProblem);
  }

  /** From attempt `k` on: what the result says, and which request was the last. */
  lemma {:induction false} RegisteredStops(server: nat -> Attempt, k: nat, now: int, deadline: int, last: Problem)
    ensures var o := Registered(server, k, now, deadline, last);
      && o.sent >= k && (now < deadline ==> o.sent > k)
      && (forall i :: k <= i < o.sent - 1 ==> Ends(server(i).reply).None?)
      && (o.result.CouldNotReach? ==>
            && o.finished >= deadline && o.wakings == o.sent
            && o.result.problem == (if o.sent == k then last else ProblemOf(server(o.sent - 1).reply))
            && (o.sent > k ==> Ends(server(o.sent - 1).reply).None?))
      && (!o.result.CouldNotReach? ==>
            o.sent > k && Ends(server(o.sent - 1).reply) == Some(o.result) && o.wakings == o.sent - 1)
    decreases deadline - now
  {
    if now < deadline && Ends(server(k).reply).None? {
      RegisteredStops(server, k + 1, now + server(k).settlesAfter + SLEEP_MS, deadline, ProblemOf(server(k).reply));
    }
  }

  /** Whatever request `i` came to, it was the last with a result exactly if its reply ends the loop. */
  lemma ResultIsTheLastReply(server: nat -> Attempt, start: int, i: nat)
    requires i < Register(server, start).sent
    ensures var o := Register(server, start);
      && (Ends(server(i).reply).Some? <==> i == o.sent - 1 && !o.result.CouldNotReach?)
      && (Ends(server(i).reply).Some? ==> o.result == Ends(server(i).reply).value)
      && (o.result.CouldNotReach? ==> o.finished >= start + WAKE_BUDGET_MS && o.result.problem == ProblemOf(server(o.sent - 1).reply))
      && (o.wakings == if o.result.CouldNotReach? then o.sent else o.sent - 1)
  {
    RegisteredStops(server, 0, start, start + WAKE_BUDGET_MS, NoProblem);
  }

  /** After an answer that is not ok and not 502, 503 or 504 nothing is sent, unless the answer's body is the JSON null. */
  lemma RefusalIsFinalIff(server: nat -> Attempt, start: int, i: nat)
    requires i < Register(server, start).sent && server(i).reply.Answered? && !Waking(server(i).reply.status)
    ensures var o := Register(server, start);
      !server(i).reply.detail.JsonNull? <==> i == o.sent - 1 && o.result.Refused?
  {
    ResultIsTheLastReply(server, start, i);
  }

  /** A server that answers at once and never ends the loop. */
  lemma {:induction false} NeverEnding(server: nat -> Attempt, k: nat, start: int, last: Problem)
    requires forall i :: server(i).settlesAfter == 0 && Ends(server(i).reply).None?
    requires k <= 25
    ensures var o := Registered(server, k, start + SLEEP_MS * k, start + WAKE_BUDGET_MS, last);
      o.sent == 25 && o.finished == start + WAKE_BUDGET_MS
    decreases 25 - k
  {
    if k < 25 {
      NeverEnding(server, k + 1, start, ProblemOf(server(k).reply));
    }
  }

  /** The bound is met; and a refusal whose body is null is repeated to the end of the budget. */
  lemma NullRefusalIsRepeated(status: nat, start: int)
    requires !Waking(status)
    ensures Register(_ => Attempt(0, Answered(status, JsonNull)), start).sent == 25
  {
    NeverEnding(_ => Attempt(0, Answered(status, JsonNull)), 0, start, NoProblem);
  }
}
