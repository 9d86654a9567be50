/** The HTTP interceptor (auth.interceptor.ts) as a sequential machine over
    request events. The module-level `isRefreshing` flag and the
    `refreshTokenSubject` broadcast are fields of one `AuthInterceptor`
    object. Each request that passes through is a `Call`. Three kinds of event
    drive the machine: a request entering (`Intercept`), the backend answering
    the latest send of a call (`Reply`), and the facade's refresh request
    settling (`RefreshSettled`). */
module Interceptor {
  import opened Common
  import opened Session
  import opened Storage
  import opened Facade

  /** An outgoing request: its URL and the `Authorization` header it already
      carries, if any. */
  datatype Request = Request(url: string, authorization: Option<string>)

  /** The backend's answer to one send: a response, or an `HttpErrorResponse`
      with its status. */
  datatype Reply = Ok | ErrorStatus(status: int)

  /** How the observable returned to the caller ended. */
  datatype Outcome = Delivered | Failed(error: Thrown)

  /** Where a call is: awaiting the answer to its first send; waiting for the
      refresh it started; waiting for another call's refresh to publish a
      token; awaiting the answer to its one resend (`initiator` when it
      started the refresh); or finished. */
  datatype Phase = Sent | Refreshing | Waiting | Retried(initiator: bool) | Done(outcome: Outcome)

  datatype Call = Call(request: Request, phase: Phase, attempts: nat)

  /** One request handed to `next`: which call it belongs to, its URL and its
      `Authorization` header. */
  datatype Outgoing = Outgoing(call: nat, url: string, authorization: Option<string>)

  const AuthPath := "/autenticacao/"

  /** `new Error('Token refresh failed')`. */
  const RefreshFailed := ErrorObject("Token refresh failed")

  /** The header value of RFC 6750, section 2.1. */
  function Bearer(token: string): (h: string)
    ensures |h| == |token| + 7 && h[..7] == "Bearer " && h[7..] == token
  {
    "Bearer " + token
  }

  /** Requests to the authentication endpoints are left alone. */
  predicate IsAuthUrl(url: string) {
    Contains(url, AuthPath)
  }

  /** The `Authorization` header of the first send: the bearer token when
      there is a non-empty token and the URL is not an authentication URL,
      otherwise whatever the request already carried. */
  function Authorize(token: Option<string>, req: Request): (h: Option<string>)
    ensures h != req.authorization ==> TruthyText(token) && !IsAuthUrl(req.url)
    ensures TruthyText(token) && !IsAuthUrl(req.url) ==> h == Some(Bearer(token.value))
  {
    if TruthyText(token) && !IsAuthUrl(req.url) then Some(Bearer(token.value)) else req.authorization
  }

  /** The header carries exactly the token it was built from. */
  lemma BearerInjective(a: string, b: string)
    requires Bearer(a) == Bearer(b)
    ensures a == b
  {
    assert a == Bearer(a)[7..];
  }

  /** An answer that sends the call into `handle401Error`. */
  predicate StartsRecovery(req: Request, reply: Reply) {
    reply == ErrorStatus(401) && !IsAuthUrl(req.url)
  }

  /** The phases a call can be in after `attempts` sends. */
  predicate WellFormed(c: Call) {
    && 1 <= c.attempts <= 2
    && (c.phase.Sent? || c.phase.Refreshing? || c.phase.Waiting? ==> c.attempts == 1)
    && (c.phase.Retried? ==> c.attempts == 2)
  }

  /** `ids` lists, once each, exactly the calls waiting for a token. */
  predicate WaitersExact(calls: seq<Call>, ids: seq<nat>) {
    && (forall k :: 0 <= k < |ids| ==> ids[k] < |calls| && calls[ids[k]].phase == Waiting)
    && (forall j, k :: 0 <= j < k < |ids| ==> ids[j] != ids[k])
    && (forall i :: 0 <= i < |calls| && calls[i].phase == Waiting ==> i in ids)
  }

  /** The resends of the calls `ids`, in that order, with `Bearer <token>`. */
  function RetrySends(ids: seq<nat>, calls: seq<Call>, token: string): (r: seq<Outgoing>)
    requires forall k :: 0 <= k < |ids| ==> ids[k] < |calls|
    ensures |r| == |ids|
    ensures forall k :: 0 <= k < |ids| ==> r[k].call == ids[k] && r[k].authorization == Some(Bearer(token))
  {
    seq(|ids|, k requires 0 <= k < |ids| => Outgoing(ids[k], calls[ids[k]].request.url, Some(Bearer(token))))
  }

  /** How many of the sends on `wire` belong to call `id`. */
  function Sends(wire: seq<Outgoing>, id: nat): (n: nat)
    ensures n <= |wire|
  {
    if wire == [] then 0
    else Sends(wire[..|wire| - 1], id) + (if wire[|wire| - 1].call == id then 1 else 0)
  }

  /** One more send counts for its own call only. */
  lemma SendsAppend(wire: seq<Outgoing>, o: Outgoing, id: nat)
    ensures Sends(wire + [o], id) == Sends(wire, id) + (if o.call == id then 1 else 0)
  {
    assert (wire + [o])[..|wire|] == wire;
  }

  /** Call `i` went out exactly `calls[i].attempts` times, and nothing on
      the wire belongs to a call that has not entered yet. */
  ghost predicate SendsMatch(calls: seq<Call>, wire: seq<Outgoing>) {
    forall i: nat {:trigger Sends(wire, i)} ::
      Sends(wire, i) == if i < |calls| then calls[i].attempts else 0
  }

  /** A resend of known call `w` keeps the counts matched once the call's
      attempts go up by one. */
  lemma SendsMatchResend(calls: seq<Call>, wire: seq<Outgoing>, w: nat, c: Call, o: Outgoing)
    requires SendsMatch(calls, wire) && w < |calls| && o.call == w
    requires c.attempts == calls[w].attempts + 1
    ensures SendsMatch(calls[w := c], wire + [o])
  {
    forall j: nat
      ensures Sends(wire + [o], j) == if j < |calls| then calls[w := c][j].attempts else 0
    {
      SendsAppend(wire, o, j);
    }
  }

  /** A call after its one resend. */
  function Resent(c: Call, initiator: bool): Call {
    c.(phase := Retried(initiator), attempts := 2)
  }

  class AuthInterceptor {
    const facade: AuthFacade
    /** `isRefreshing`. */
    var isRefreshing: bool
    /** `refreshTokenSubject.value`. */
    var latestToken: Option<string>
    /** Every call that entered the interceptor, by arrival. */
    var calls: seq<Call>
    /** Every request handed to `next`, in order. */
    var wire: seq<Outgoing>
    /** Number of `authFacade.refreshToken()` calls. */
    var refreshCalls: nat
    /** The calls subscribed to `refreshTokenSubject`, in subscription order. */
    var waiters: seq<nat>

    ghost predicate Valid()
      reads this, facade
    {
      && facade.Valid()
      && (isRefreshing ==> latestToken == None)
      && (forall i :: 0 <= i < |calls| ==> WellFormed(calls[i]))
      && WaitersExact(calls, waiters)
      && SendsMatch(calls, wire)
    }

    constructor (facade: AuthFacade)
      requires facade.Valid()
      ensures this.facade == facade && Valid()
      ensures !isRefreshing && latestToken == None
      ensures calls == [] && wire == [] && refreshCalls == 0 && waiters == []
    {
      this.facade := facade;
      isRefreshing := false;
      latestToken := None;
      calls := [];
      wire := [];
      refreshCalls := 0;
      waiters := [];
    }

    /** A request enters `authInterceptor`: it is sent on at once, with the
        facade's access token attached where that applies. */
    method Intercept(req: Request) returns (id: nat)
      requires Valid()
      modifies this`calls, this`wire
      ensures Valid()
      ensures id == |old(calls)| && calls == old(calls) + [Call(req, Sent, 1)]
      ensures wire == old(wire) + [Outgoing(id, req.url, Authorize(facade.AccessToken(), req))]
    {
      id := |calls|;
      var o := Outgoing(id, req.url, Authorize(facade.AccessToken(), req));
      forall i: nat
        ensures Sends(wire + [o], i) == if i <= id then (calls + [Call(req, Sent, 1)])[i].attempts else 0
      {
        SendsAppend(wire, o, i);
      }
      calls := calls + [Call(req, Sent, 1)];
      wire := wire + [o];
    }

    /** Call `id` ends with `outcome`. */
    method Finish(id: nat, outcome: Outcome)
      requires id < |calls| && WellFormed(calls[id]) && calls[id].phase != Waiting
      requires forall i :: 0 <= i < |calls| ==> WellFormed(calls[i])
      requires WaitersExact(calls, waiters)
      modifies this`calls
      ensures calls == old(calls)[id := old(calls[id]).(phase := Done(outcome))]
      ensures forall i :: 0 <= i < |calls| ==> WellFormed(calls[i])
      ensures WaitersExact(calls, waiters)
    {
      calls := calls[id := calls[id].(phase := Done(outcome))];
    }

    /** The failure path of `handle401Error` after the refresh answered false
        or left no access token: the `switchMap` logs out and throws, and
        the trailing `catchError` logs out once more and re-raises. */
    method FailRefresh(id: nat)
      requires Valid() && id < |calls| && calls[id].phase == Refreshing
      modifies this`calls, this`isRefreshing, facade, facade.router, facade.storage, facade.storage.storage
      ensures Valid() && !isRefreshing
      ensures calls == old(calls)[id := old(calls[id]).(phase := Done(Failed(RefreshFailed)))]
      ensures facade.state == Anonymous && facade.published == old(facade.published) + [Anonymous, Anonymous]
      ensures facade.router.navigations == old(facade.router.navigations) + [LoginRoute, LoginRoute]
    {
      isRefreshing := false;
      facade.Logout();
      facade.Logout();
      Finish(id, Failed(RefreshFailed));
    }

    /** The backend answers the latest send of call `id`. A first send that
        fails with 401 on a non-authentication URL goes to `handle401Error`;
        any other error is re-raised unchanged. A resend goes straight to
        `next`, so its answer is final; an error on the resend of the call
        that started the refresh reaches the trailing `catchError`, which
        clears the flag and logs out. */
    method Reply(id: nat, reply: Reply, now: int)
      requires Valid() && id < |calls| && (calls[id].phase == Sent || calls[id].phase.Retried?)
      modifies this, facade, facade.router, facade.storage, facade.storage.storage
      ensures Valid()
      ensures |calls| == |old(calls)|
      ensures forall i :: 0 <= i < |calls| && i != id ==> calls[i] == old(calls[i])
      // success, and errors that are not recovered, end the call and nothing else
      ensures !(old(calls[id].phase) == Sent && StartsRecovery(old(calls[id].request), reply)) ==>
        refreshCalls == old(refreshCalls) && waiters == old(waiters) && latestToken == old(latestToken)
      ensures reply == Ok ==>
        && calls[id] == old(calls[id]).(phase := Done(Delivered))
        && isRefreshing == old(isRefreshing) && facade.state == old(facade.state)
        && facade.router.navigations == old(facade.router.navigations)
        && facade.published == old(facade.published)
        && (facade.storage.storage != null ==> facade.storage.storage.items == old(facade.storage.storage.items))
      ensures reply.ErrorStatus? && old(calls[id].phase) == Sent && !StartsRecovery(old(calls[id].request), reply) ==>
        && calls[id] == old(calls[id]).(phase := Done(Failed(HttpError(reply.status))))
        && isRefreshing == old(isRefreshing) && refreshCalls == old(refreshCalls)
        && facade.state == old(facade.state)
        && facade.router.navigations == old(facade.router.navigations)
        && facade.published == old(facade.published)
        && (facade.storage.storage != null ==> facade.storage.storage.items == old(facade.storage.storage.items))
      // a 401 during a refresh waits for the token, without a refresh of its own
      ensures old(calls[id].phase) == Sent && StartsRecovery(old(calls[id].request), reply) && old(isRefreshing) ==>
        && calls[id] == old(calls[id]).(phase := Waiting)
        && waiters == old(waiters) + [id]
        && isRefreshing && refreshCalls == old(refreshCalls) && latestToken == old(latestToken)
        && facade.state == old(facade.state)
        && facade.router.navigations == old(facade.router.navigations)
        && facade.published == old(facade.published)
        && (facade.storage.storage != null ==> facade.storage.storage.items == old(facade.storage.storage.items))
      // a 401 outside a refresh starts exactly one
      ensures old(calls[id].phase) == Sent && StartsRecovery(old(calls[id].request), reply) && !old(isRefreshing) ==>
        && refreshCalls == old(refreshCalls) + 1
        && latestToken == None && waiters == old(waiters) && wire == old(wire)
      ensures old(calls[id].phase) == Sent && StartsRecovery(old(calls[id].request), reply) && !old(isRefreshing)
              && TruthyText(old(facade.state.refreshToken)) && !RefreshExpired(old(facade.state), now) ==>
        && calls[id] == old(calls[id]).(phase := Refreshing)
        && isRefreshing && facade.state == old(facade.state)
        && facade.router.navigations == old(facade.router.navigations)
      // refresh answered false at once: two logouts, or three when the
      // facade itself logged out over an expired refresh token
      ensures old(calls[id].phase) == Sent && StartsRecovery(old(calls[id].request), reply) && !old(isRefreshing)
              && !TruthyText(old(facade.state.refreshToken)) ==>
        && calls[id] == old(calls[id]).(phase := Done(Failed(RefreshFailed)))
        && !isRefreshing && facade.state == Anonymous
        && facade.router.navigations == old(facade.router.navigations) + [LoginRoute, LoginRoute]
      ensures old(calls[id].phase) == Sent && StartsRecovery(old(calls[id].request), reply) && !old(isRefreshing)
              && TruthyText(old(facade.state.refreshToken)) && RefreshExpired(old(facade.state), now) ==>
        && calls[id] == old(calls[id]).(phase := Done(Failed(RefreshFailed)))
        && !isRefreshing && facade.state == Anonymous
        && facade.router.navigations == old(facade.router.navigations) + [LoginRoute, LoginRoute, LoginRoute]
      // errors on a resend are final; only the refresh initiator logs out
      ensures reply.ErrorStatus? && old(calls[id].phase) == Retried(true) ==>
        && calls[id] == old(calls[id]).(phase := Done(Failed(HttpError(reply.status))))
        && !isRefreshing && facade.state == Anonymous
        && facade.router.navigations == old(facade.router.navigations) + [LoginRoute]
      ensures reply.ErrorStatus? && old(calls[id].phase) == Retried(false) ==>
        && calls[id] == old(calls[id]).(phase := Done(Failed(HttpError(reply.status))))
        && isRefreshing == old(isRefreshing) && facade.state == old(facade.state)
        && facade.router.navigations == old(facade.router.navigations)
        && facade.published == old(facade.published)
        && (facade.storage.storage != null ==> facade.storage.storage.items == old(facade.storage.storage.items))
      // nothing is ever sent in answer to a reply
      ensures wire == old(wire)
    {
      match reply
      case Ok =>
        Finish(id, Delivered);
      case ErrorStatus(status) =>
        if calls[id].phase.Retried? {
          ResendFailed(id, status);
        } else if !StartsRecovery(calls[id].request, reply) {
          Finish(id, Failed(HttpError(status)));
        } else {
          Handle401(id, now);
        }
    }

    /** An error on a resend reaches the caller unchanged; when the call
        started the refresh it first passes the trailing `catchError`, which
        clears the flag and logs out. */
    method ResendFailed(id: nat, status: int)
      requires Valid() && id < |calls| && calls[id].phase.Retried?
      modifies this`calls, this`isRefreshing, facade, facade.router, facade.storage, facade.storage.storage
      ensures Valid()
      ensures calls == old(calls)[id := old(calls[id]).(phase := Done(Failed(HttpError(status))))]
      ensures old(calls[id].phase.initiator) ==>
        !isRefreshing && facade.state == Anonymous
        && facade.router.navigations == old(facade.router.navigations) + [LoginRoute]
      ensures !old(calls[id].phase.initiator) ==>
        isRefreshing == old(isRefreshing) && facade.state == old(facade.state)
        && facade.router.navigations == old(facade.router.navigations)
        && facade.published == old(facade.published)
        && (facade.storage.storage != null ==> facade.storage.storage.items == old(facade.storage.storage.items))
    {
      if calls[id].phase.initiator {
        isRefreshing := false;
        facade.Logout();
      }
      Finish(id, Failed(HttpError(status)));
    }

    /** `handle401Error` for call `id`: during a refresh the call subscribes to
        the token broadcast; otherwise it raises the flag, resets the
        broadcast and asks the facade to refresh. */
    method Handle401(id: nat, now: int)
      requires Valid() && id < |calls| && calls[id].phase == Sent
      modifies this`calls, this`isRefreshing, this`latestToken, this`refreshCalls, this`waiters,
               facade, facade.router, facade.storage, facade.storage.storage
      ensures Valid() && |calls| == |old(calls)|
      ensures forall i :: 0 <= i < |calls| && i != id ==> calls[i] == old(calls[i])
      ensures old(isRefreshing) ==>
        && calls[id] == old(calls[id]).(phase := Waiting)
        && waiters == old(waiters) + [id]
        && isRefreshing && refreshCalls == old(refreshCalls) && latestToken == old(latestToken)
        && facade.state == old(facade.state)
        && facade.router.navigations == old(facade.router.navigations)
        && facade.published == old(facade.published)
        && (facade.storage.storage != null ==> facade.storage.storage.items == old(facade.storage.storage.items))
      ensures !old(isRefreshing) ==>
        refreshCalls == old(refreshCalls) + 1 && latestToken == None && waiters == old(waiters)
      ensures !old(isRefreshing) && TruthyText(old(facade.state.refreshToken)) && !RefreshExpired(old(facade.state), now) ==>
        && calls[id] == old(calls[id]).(phase := Refreshing)
        && isRefreshing && facade.state == old(facade.state)
        && facade.router.navigations == old(facade.router.navigations)
      ensures !old(isRefreshing) && !TruthyText(old(facade.state.refreshToken)) ==>
        && calls[id] == old(calls[id]).(phase := Done(Failed(RefreshFailed)))
        && !isRefreshing && facade.state == Anonymous
        && facade.router.navigations == old(facade.router.navigations) + [LoginRoute, LoginRoute]
      ensures !old(isRefreshing) && TruthyText(old(facade.state.refreshToken)) && RefreshExpired(old(facade.state), now) ==>
        && calls[id] == old(calls[id]).(phase := Done(Failed(RefreshFailed)))
        && !isRefreshing && facade.state == Anonymous
        && facade.router.navigations == old(facade.router.navigations) + [LoginRoute, LoginRoute, LoginRoute]
    {
      if isRefreshing {
        Subscribe(id);
      } else {
        StartRefresh(id, now);
      }
    }

    /** During a refresh, call `id` waits for the next token broadcast. */
    method Subscribe(id: nat)
      requires Valid() && id < |calls| && calls[id].phase == Sent && isRefreshing
      modifies this`calls, this`waiters
      ensures Valid() && |calls| == |old(calls)|
      ensures forall i :: 0 <= i < |calls| && i != id ==> calls[i] == old(calls[i])
      ensures calls[id] == old(calls[id]).(phase := Waiting)
      ensures waiters == old(waiters) + [id]
    {
      calls := calls[id := calls[id].(phase := Waiting)];
      waiters := waiters + [id];
    }

    /** Call `id` is the first to fail with 401: the flag goes up, the token
        broadcast is reset and the facade is asked to refresh; a refresh the
        facade refuses on the spot fails the call. */
    method StartRefresh(id: nat, now: int)
      requires Valid() && id < |calls| && calls[id].phase == Sent && !isRefreshing
      modifies this`calls, this`isRefreshing, this`latestToken, this`refreshCalls,
               facade, facade.router, facade.storage, facade.storage.storage
      ensures Valid() && |calls| == |old(calls)|
      ensures forall i :: 0 <= i < |calls| && i != id ==> calls[i] == old(calls[i])
      ensures refreshCalls == old(refreshCalls) + 1 && latestToken == None && waiters == old(waiters)
      ensures TruthyText(old(facade.state.refreshToken)) && !RefreshExpired(old(facade.state), now) ==>
        && calls[id] == old(calls[id]).(phase := Refreshing)
        && isRefreshing && facade.state == old(facade.state)
        && facade.router.navigations == old(facade.router.navigations)
      ensures !TruthyText(old(facade.state.refreshToken)) ==>
        && calls[id] == old(calls[id]).(phase := Done(Failed(RefreshFailed)))
        && !isRefreshing && facade.state == Anonymous
        && facade.router.navigations == old(facade.router.navigations) + [LoginRoute, LoginRoute]
      ensures TruthyText(old(facade.state.refreshToken)) && RefreshExpired(old(facade.state), now) ==>
        && calls[id] == old(calls[id]).(phase := Done(Failed(RefreshFailed)))
        && !isRefreshing && facade.state == Anonymous
        && facade.router.navigations == old(facade.router.navigations) + [LoginRoute, LoginRoute, LoginRoute]
    {
      isRefreshing := true;
      latestToken := None;
      refreshCalls := refreshCalls + 1;
      calls := calls[id := calls[id].(phase := Refreshing)];
      var start := facade.RefreshToken(now);
      if start.Answered? {
        FailRefresh(id);
      }
    }

    /** `refreshTokenSubject.next(token)`: every waiting call is resent once
        with the new token, in subscription order. */
    method ReleaseWaiters(token: string)
      requires forall i :: 0 <= i < |calls| ==> WellFormed(calls[i])
      requires WaitersExact(calls, waiters) && SendsMatch(calls, wire)
      modifies this`calls, this`wire, this`waiters
      ensures waiters == [] && |calls| == |old(calls)|
      ensures forall i :: 0 <= i < |calls| ==>
        calls[i] == if i in old(waiters) then Resent(old(calls[i]), false) else old(calls[i])
      ensures wire == old(wire) + RetrySends(old(waiters), old(calls), token)
      ensures forall i :: 0 <= i < |calls| ==> WellFormed(calls[i])
      ensures WaitersExact(calls, waiters) && SendsMatch(calls, wire)
    {
      ghost var calls0, wire0 := calls, wire;
      var i := 0;
      while i < |waiters|
        invariant 0 <= i <= |waiters| && waiters == old(waiters)
        invariant |calls| == |calls0|
        invariant forall j :: 0 <= j < |calls| ==>
          calls[j] == if j in waiters[..i] then Resent(calls0[j], false) else calls0[j]
        invariant wire == wire0 + RetrySends(waiters[..i], calls0, token)
        invariant SendsMatch(calls, wire)
      {
        var w := waiters[i];
        assert w !in waiters[..i];
        assert waiters[..i + 1] == waiters[..i] + [w];
        var o := Outgoing(w, calls[w].request.url, Some(Bearer(token)));
        SendsMatchResend(calls, wire, w, Resent(calls[w], false), o);
        calls := calls[w := Resent(calls[w], false)];
        wire := wire + [o];
        i := i + 1;
      }
      assert waiters[..i] == waiters;
      waiters := [];
    }

    /** Refresh success with a non-empty token: the flag is cleared, the token
        is published, every waiting call is resent with it, and then `id`
        itself is resent. */
    method Resume(id: nat, token: string)
      requires Valid() && id < |calls| && calls[id].phase == Refreshing
      modifies this`isRefreshing, this`latestToken, this`calls, this`wire, this`waiters
      ensures Valid() && !isRefreshing && latestToken == Some(token) && waiters == []
      ensures |calls| == |old(calls)| && calls[id] == Resent(old(calls[id]), true)
      ensures forall i :: 0 <= i < |calls| && i != id ==>
        calls[i] == if i in old(waiters) then Resent(old(calls[i]), false) else old(calls[i])
      ensures wire == old(wire) + RetrySends(old(waiters), old(calls), token)
                      + [Outgoing(id, old(calls[id].request.url), Some(Bearer(token)))]
    {
      isRefreshing := false;
      latestToken := Some(token);
      var url := calls[id].request.url;
      assert id !in waiters;
      ReleaseWaiters(token);
      var o := Outgoing(id, url, Some(Bearer(token)));
      SendsMatchResend(calls, wire, id, Resent(calls[id], true), o);
      calls := calls[id := Resent(calls[id], true)];
      wire := wire + [o];
    }

    /** The facade's refresh request, started by call `id`, has been answered
        at `now`. Success with a non-empty access token resumes every call
        held up by the refresh. Otherwise the call fails and the user is
        logged out twice, once by each failure handler it passes. */
    method RefreshSettled(id: nat, response: Result<TokenResponse, Thrown>, now: int)
      requires Valid() && id < |calls| && calls[id].phase == Refreshing
      modifies this, facade, facade.router, facade.storage, facade.storage.storage
      ensures Valid() && !isRefreshing && refreshCalls == old(refreshCalls)
      ensures |calls| == |old(calls)|
      ensures response.Success? && response.value.accessToken != "" ==>
        && var token := response.value.accessToken;
        && latestToken == Some(token)
        && facade.state == SessionFrom(response.value, now)
        && facade.router.navigations == old(facade.router.navigations)
        && waiters == []
        && calls[id] == Resent(old(calls[id]), true)
        && (forall i :: 0 <= i < |calls| && i != id ==>
              calls[i] == if i in old(waiters) then Resent(old(calls[i]), false) else old(calls[i]))
        && wire == old(wire) + RetrySends(old(waiters), old(calls), token)
                   + [Outgoing(id, old(calls[id].request.url), Some(Bearer(token)))]
      ensures response.Success? && response.value.accessToken == "" ==>
        && calls == old(calls)[id := old(calls[id]).(phase := Done(Failed(RefreshFailed)))]
        && facade.state == Anonymous
        && facade.router.navigations == old(facade.router.navigations) + [LoginRoute, LoginRoute]
        && latestToken == old(latestToken) && waiters == old(waiters) && wire == old(wire)
      ensures response.Failure? ==>
        && calls == old(calls)[id := old(calls[id]).(phase := Done(Failed(response.error)))]
        && facade.state == Anonymous
        && facade.router.navigations == old(facade.router.navigations) + [LoginRoute, LoginRoute]
        && latestToken == old(latestToken) && waiters == old(waiters) && wire == old(wire)
    {
      var r := facade.CompleteRefresh(response, now);
      if r.Failure? {
        // the facade has logged out; the trailing catchError does so again
        isRefreshing := false;
        facade.Logout();
        Finish(id, Failed(r.error));
      } else {
        var token := facade.AccessToken();
        if TruthyText(token) {
          Resume(id, token.value);
        } else {
          FailRefresh(id);
        }
      }
    }
  }

  /** No request goes out more than twice: its first send and at most one
      resend. */
  lemma SentAtMostTwice(it: AuthInterceptor, i: nat)
    requires it.Valid()
    ensures Sends(it.wire, i) <= 2
    ensures i >= |it.calls| ==> Sends(it.wire, i) == 0
  {
  }

  // ---------------------------------------------------------------------------
  // Concrete runs

  /** A signed-in session: empty working storage, then a login at `now`
      answered with access token `token`. */
  method SignedIn(token: string, now: int) returns (f: AuthFacade)
    ensures fresh(f) && fresh(f.router) && fresh(f.storage)
    ensures f.storage.storage != null && fresh(f.storage.storage)
    ensures f.Valid() && f.router.navigations == []
    ensures f.state == SessionFrom(TokenResponse(token, "r1", 60, 3600), now)
  {
    var browser := new BrowserStorage(map[], false);
    var storage := new AuthStorageService(browser);
    var router := new Router();
    f := new AuthFacade(storage, router, now);
    var _ := f.Login(Success(TokenResponse(token, "r1", 60, 3600)), now);
  }

  /** One request meets an expired access token: it is sent with "old", gets
      401, the refresh answers "new", and it is resent once with "new" and
      delivered. One refresh, no logout. */
  method RefreshAndRetryRun() returns (wire: seq<Outgoing>, refreshCalls: nat, logouts: nat, outcome: Phase)
    ensures wire == [Outgoing(0, "/v1/pets", Some("Bearer old")), Outgoing(0, "/v1/pets", Some("Bearer new"))]
    ensures refreshCalls == 1 && logouts == 0 && outcome == Done(Delivered)
  {
    var f := SignedIn("old", 1000);
    var it := new AuthInterceptor(f);
    var a := it.Intercept(Request("/v1/pets", None));
    assert Bearer("old") == "Bearer old" && Bearer("new") == "Bearer new";
    it.Reply(a, ErrorStatus(401), 2000);
    it.RefreshSettled(a, Success(TokenResponse("new", "r2", 60, 3600)), 2000);
    it.Reply(a, Ok, 2000);
    wire, refreshCalls, logouts, outcome := it.wire, it.refreshCalls, |f.router.navigations|, it.calls[a].phase;
  }

  /** Two requests meet 401 with an expired access token "old": the first
      starts the refresh, the second waits for its token. */
  method TwoRequestsMeet401() returns (it: AuthInterceptor)
    ensures fresh(it) && fresh(it.facade) && fresh(it.facade.router) && fresh(it.facade.storage)
    ensures it.facade.storage.storage != null && fresh(it.facade.storage.storage)
    ensures it.Valid() && it.isRefreshing && it.refreshCalls == 1 && it.facade.router.navigations == []
    ensures |it.calls| == 2 && it.waiters == [1]
    ensures it.calls[0] == Call(Request("/v1/pets", None), Refreshing, 1)
    ensures it.calls[1] == Call(Request("/v1/tutores", None), Waiting, 1)
    ensures it.wire == [Outgoing(0, "/v1/pets", Some("Bearer old")), Outgoing(1, "/v1/tutores", Some("Bearer old"))]
  {
    assert Bearer("old") == "Bearer old";
    var f := SignedIn("old", 1000);
    it := new AuthInterceptor(f);
    var a := it.Intercept(Request("/v1/pets", None));
    var b := it.Intercept(Request("/v1/tutores", None));
    it.Reply(a, ErrorStatus(401), 2000);
    assert it.isRefreshing;
    it.Reply(b, ErrorStatus(401), 2000);
  }

  /** Two requests meet 401 while one refresh is outstanding: only the first
      starts a refresh; when it succeeds the waiting request is resent
      before the one that started it. */
  method ConcurrentRetryRun() returns (wire: seq<Outgoing>, refreshCalls: nat, logouts: nat)
    ensures wire == [
      Outgoing(0, "/v1/pets", Some("Bearer old")), Outgoing(1, "/v1/tutores", Some("Bearer old")),
      Outgoing(1, "/v1/tutores", Some("Bearer new")), Outgoing(0, "/v1/pets", Some("Bearer new"))]
    ensures refreshCalls == 1 && logouts == 0
  {
    assert Bearer("new") == "Bearer new";
    var it := TwoRequestsMeet401();
    it.RefreshSettled(0, Success(TokenResponse("new", "r2", 60, 3600)), 2000);
    wire, refreshCalls, logouts := it.wire, it.refreshCalls, |it.facade.router.navigations|;
  }

  /** A refresh that fails: the request that started it fails with the
      refresh error after two logouts, and the request waiting for a token
      is still waiting at the end of the run, not resent. */
  method FailedRefreshRun() returns (wire: seq<Outgoing>, logouts: nat, first: Phase, second: Phase)
    ensures |wire| == 2 && logouts == 2
    ensures first == Done(Failed(Text("Sess\U{00E3}o expirada"))) && second == Waiting
  {
    var it := TwoRequestsMeet401();
    it.RefreshSettled(0, Failure(Text("Sess\U{00E3}o expirada")), 2000);
    wire, logouts, first, second := it.wire, |it.facade.router.navigations|, it.calls[0].phase, it.calls[1].phase;
  }
}
