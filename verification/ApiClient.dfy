/** The REST client's module variables, and what its functions do to them between two awaits. */
module ApiClient {
  import opened Basics
  import opened TokenRefresh

  class Client {
    var currentAccessToken: Option<string>
    var tokenRefresher: bool
    var refreshPromise: Option<nat>
    var failures: nat
    // The suspended and finished runs of the asynchronous functions.
    var exchanges: seq<Exchange>
    var callers: seq<Caller>

    ghost function Now(): State
      reads this
    {
      State(currentAccessToken, tokenRefresher, refreshPromise, exchanges, callers, failures)
    }

    constructor ()
      ensures Now() == Start
    {
      currentAccessToken, tokenRefresher, refreshPromise, failures := None, false, None, 0;
      exchanges, callers := [], [];
    }

    method SetAccessToken(token: Option<string>)
      modifies this
      ensures Now() == Next(old(Now()), Action.SetAccessToken(token))
    {
      currentAccessToken := token;
    }

    method SetTokenRefresher(present: bool)
      modifies this
      ensures Now() == Next(old(Now()), Action.SetTokenRefresher(present))
    {
      tokenRefresher := present;
    }

    // ---------------------------------------------- requestRefreshToken

    method RequestRefreshToken(c: nat, throwsAtOnce: bool, cb: Callback)
      requires c < |callers|
      modifies this
      ensures Now() == Ask(old(Now()), c, throwsAtOnce, cb)
    {
      var promise: nat;
      if refreshPromise.Some? {
        promise := refreshPromise.value;
      } else {
        promise := |exchanges|;
        exchanges := exchanges + [Exchange(c, if tokenRefresher then AskingRefresher else AskingServer)];
        if tokenRefresher && throwsAtOnce {
          OnException(promise, cb, cb.throwsFirst);
        }
        refreshPromise := Some(promise);
      }
      callers := callers[c := callers[c].(joined := Some(promise), waits := ForToken)];
    }

    /** The finally clause and the end of the exchange. */
    method Finish(e: nat, outcome: Outcome)
      requires e < |exchanges|
      modifies this
      ensures Now() == Settle(old(Now()), e, outcome)
    {
      refreshPromise := None;
      exchanges := exchanges[e := exchanges[e].(stage := Settled(outcome))];
    }

    method OnException(e: nat, cb: Callback, throws: bool)
      requires e < |exchanges|
      modifies this
      ensures Now() == Catch(old(Now()), e, cb, throws)
    {
      currentAccessToken := None;
      if cb.registered {
        failures := failures + 1;
        if throws {
          Finish(e, Rejects);
          return;
        }
      }
      Finish(e, Resolves(None));
    }

    method OnRefresherReply(e: nat, reply: RefresherReply, cb: Callback)
      requires e < |exchanges|
      modifies this
      ensures Now() == RefresherAnswers(old(Now()), e, reply, cb)
    {
      if reply.Throws? {
        OnException(e, cb, cb.throwsFirst);
        return;
      }
      currentAccessToken := reply.token;
      if !Truthy(reply.token) && cb.registered {
        failures := failures + 1;
        if cb.throwsFirst {
          OnException(e, cb, cb.throwsSecond);
          return;
        }
      }
      Finish(e, Resolves(reply.token));
    }

    method OnServerReply(e: nat, reply: ServerReply, cb: Callback)
      requires e < |exchanges|
      modifies this
      ensures Now() == ServerAnswers(old(Now()), e, reply, cb)
    {
      if reply.Unreachable? {
        OnException(e, cb, cb.throwsFirst);
      } else if reply.NotOk? {
        currentAccessToken := None;
        if cb.registered {
          failures := failures + 1;
          if cb.throwsFirst {
            OnException(e, cb, cb.throwsSecond);
            return;
          }
        }
        Finish(e, Resolves(None));
      } else {
        exchanges := exchanges[e := exchanges[e].(stage := ReadingBody)];
      }
    }

    method OnBody(e: nat, reply: BodyReply, cb: Callback)
      requires e < |exchanges|
      modifies this
      ensures Now() == BodyArrives(old(Now()), e, reply, cb)
    {
      if reply.Unreadable? {
        OnException(e, cb, cb.throwsFirst);
      } else if Truthy(reply.accessToken) {
        currentAccessToken := reply.accessToken;
        Finish(e, Resolves(reply.accessToken));
      } else {
        Finish(e, Resolves(None));
      }
    }

    // ------------------------------------------------------ fetchWithAuth

    method CallRequestRefreshToken(throwsAtOnce: bool, cb: Callback)
      modifies this
      ensures Now() == CallRefresh(old(Now()), throwsAtOnce, cb)
    {
      callers := callers + [Caller(None, [], [], None, None, ForToken)];
      RequestRefreshToken(|callers| - 1, throwsAtOnce, cb);
    }

    method FetchWithAuth(endpoint: string, own: Option<string>)
      modifies this
      ensures Now() == TokenRefresh.FetchWithAuth(old(Now()), endpoint, own)
    {
      var authorization := own;
      if Truthy(currentAccessToken) && authorization.None? {
        authorization := Some("Bearer " + currentAccessToken.value);
      }
      callers := callers + [Caller(Some(endpoint), [authorization], [], None, None, ForAnswer)];
    }

    method OnFetchError(c: nat)
      requires c < |callers|
      modifies this
      ensures Now() == FetchFails(old(Now()), c)
    {
      callers := callers[c := callers[c].(waits := Nothing)];
    }

    method OnResponse(c: nat, status: nat, throwsAtOnce: bool, cb: Callback)
      requires c < |callers|
      modifies this
      ensures Now() == FetchAnswers(old(Now()), c, status, throwsAtOnce, cb)
    {
      var caller := callers[c];
      callers := callers[c := caller.(statuses := caller.statuses + [status], waits := Nothing)];
      if caller.statuses == [] && status == 401 && caller.endpoint.Some? && !IsAuthEndpoint(caller.endpoint.value) {
        RequestRefreshToken(c, throwsAtOnce, cb);
      }
    }

    method OnToken(c: nat, outcome: Outcome)
      requires c < |callers|
      modifies this
      ensures Now() == TokenReaches(old(Now()), c, outcome)
    {
      var caller := callers[c].(got := Some(outcome), waits := Nothing);
      if caller.endpoint.Some? && outcome.Resolves? && Truthy(outcome.token) {
        caller := caller.(sent := caller.sent + [Some("Bearer " + outcome.token.value)], waits := ForAnswer);
      }
      callers := callers[c := caller];
    }
  }
}
