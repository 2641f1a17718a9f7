/** The client's session: the auth, target-user and working-hours stores
    and the persist flag, and the three hooks that act on them —
    hooks/useLogout.js, hooks/useRefreshToken.js and the two interceptors
    hooks/useAxiosPrivate.js installs on the private HTTP client. Server
    answers are parameters; the order in which the hooks touch the stores
    is kept in an event log. */
module Session {
  import opened Wrappers
  import WorkingHoursReducer

  /** The `userInfo` a token carries, as far as the pages read it. */
  datatype UserInfo = UserInfo(id: Option<string>, email: Option<string>, roles: Option<seq<string>>)

  /** The auth store after LOGIN: the user info with the raw token beside it. */
  datatype AuthInfo = AuthInfo(info: UserInfo, accessToken: string)

  /** The user store: the user an admin is looking at. */
  datatype TargetUser = TargetUser(userId: Option<string>, userEmail: Option<string>)

  /** The client-side state the hooks change. */
  datatype Snapshot = Snapshot(
    auth: Option<AuthInfo>,
    targetUser: Option<TargetUser>,
    workingHours: WorkingHoursReducer.State,
    persist: bool)

  /** What the hooks do, in order: a request to the server, or a store update. */
  datatype Event =
    | PostLogout | PostRefresh
    | DispatchLogin(auth: AuthInfo) | DispatchLogout | ClearUser | ClearWorkingHours | PersistOff

  /** The state after `logout`: everything cleared when the server accepted
      the call, nothing changed otherwise. */
  function AfterLogout(s: Snapshot, accepted: bool): (r: Snapshot)
    ensures accepted ==> r.auth.None? && r.targetUser.None? && r.workingHours.workingHours.None? && !r.persist
    ensures !accepted ==> r == s
  {
    if !accepted then s
    else
      var hours := WorkingHoursReducer.Reduce(s.workingHours, WorkingHoursReducer.SetWorkingHours(None));
      Snapshot(None, None, hours.state, false)
  }

  function LogoutEvents(accepted: bool): seq<Event> {
    [PostLogout] + if accepted then [DispatchLogout, ClearUser, ClearWorkingHours, PersistOff] else []
  }

  /** A successful logout forgets the state it started from, so logging out
      twice is logging out once. */
  lemma LogoutForgetsState(s: Snapshot, t: Snapshot)
    ensures AfterLogout(s, true) == AfterLogout(t, true)
    ensures AfterLogout(AfterLogout(s, true), true) == AfterLogout(s, true)
  {
  }

  /** An HTTP error response: its status and the `error` field of its body. */
  datatype ErrorResponse = ErrorResponse(status: int, error: Option<string>)

  /** A rejected request; `response` is `None` for a network failure. */
  datatype HttpFailure = HttpFailure(response: Option<ErrorResponse>)

  /** How the server answers `POST /api/auth/refresh`. */
  datatype RefreshReply = Data(body: string) | Refused(response: ErrorResponse) | NetworkDown

  /** What `refresh()` yields: the new token, `null`, or the error it rethrows. */
  datatype RefreshResult = Token(token: string) | NoToken | Rethrown(failure: HttpFailure)

  /** The refresh failures that end the session: a 403 whose body says
      "Forbidden", a 401, or a 400. */
  predicate RefreshFailureLogsOut(e: ErrorResponse) {
    (e.status == 403 && e.error == Some("Forbidden")) || e.status == 401 || e.status == 400
  }

  /** A failure the response interceptor answers with a refresh. */
  predicate IsAuthError(f: HttpFailure) {
    f.response.Some? && (f.response.value.status == 403 || f.response.value.status == 401)
  }

  /** A refused refresh: `refresh` logs out when the failure ends the
      session, then the interceptor logs out for a status of 400 or more. */
  function AfterRefused(s: Snapshot, e: ErrorResponse, accepted: bool): Snapshot {
    var afterRefresh := if RefreshFailureLogsOut(e) then AfterLogout(s, accepted) else s;
    if e.status >= 400 then AfterLogout(afterRefresh, accepted) else afterRefresh
  }

  function RefusedEvents(e: ErrorResponse, accepted: bool): seq<Event> {
    [PostRefresh]
    + (if RefreshFailureLogsOut(e) then LogoutEvents(accepted) else [])
    + (if e.status >= 400 then LogoutEvents(accepted) else [])
  }

  /** An error the interceptor does not refresh for logs out only when it
      is a 403 on a request already retried. */
  predicate LogsOutUnrefreshed(f: HttpFailure, retried: bool) {
    f.response.Some? && f.response.value.status == 403 && retried
  }

  function AfterUnrefreshed(s: Snapshot, f: HttpFailure, retried: bool, accepted: bool): Snapshot {
    if LogsOutUnrefreshed(f, retried) then AfterLogout(s, accepted) else s
  }

  function UnrefreshedEvents(f: HttpFailure, retried: bool, accepted: bool): seq<Event> {
    if LogsOutUnrefreshed(f, retried) then LogoutEvents(accepted) else []
  }

  /** `config.headers['Authorization']` is set to a non-empty value. */
  predicate HasHeader(h: Option<string>) {
    h.Some? && h.value != ""
  }

  /** The request the private client is sending: its Authorization header
      and the `_retry` mark. */
  class PendingRequest {
    var authorization: Option<string>
    var retry: bool

    constructor (authorization: Option<string>)
      ensures this.authorization == authorization && !retry
    {
      this.authorization := authorization;
      retry := false;
    }
  }

  /** Where the response interceptor sends a failed request. */
  datatype Next = Resend | Reject(failure: HttpFailure)

  /** How a request ends. */
  datatype Settled = Resolved | Rejected(failure: HttpFailure)

  class ClientSession {
    var auth: Option<AuthInfo>
    var targetUser: Option<TargetUser>
    var workingHours: WorkingHoursReducer.State
    var persist: bool
    var events: seq<Event>

    constructor (s: Snapshot)
      ensures Snap() == s && events == []
    {
      auth := s.auth;
      targetUser := s.targetUser;
      workingHours := s.workingHours;
      persist := s.persist;
      events := [];
    }

    function Snap(): Snapshot
      reads this
    {
      Snapshot(auth, targetUser, workingHours, persist)
    }

    /** `dispatch` of the working-hours store. An action the reducer throws
        on leaves the store as it was (React rethrows while rendering). */
    method DispatchWorkingHours(action: WorkingHoursReducer.Action) returns (ok: bool)
      modifies this
      ensures ok <==> WorkingHoursReducer.Reduce(old(workingHours), action).Next?
      ensures ok ==> workingHours == WorkingHoursReducer.Reduce(old(workingHours), action).state
      ensures !ok ==> workingHours == old(workingHours)
      ensures auth == old(auth) && targetUser == old(targetUser) && persist == old(persist) && events == old(events)
    {
      var next := WorkingHoursReducer.Reduce(workingHours, action);
      ok := next.Next?;
      if ok {
        workingHours := next.state;
      }
    }

    /** `logout`: posts to the server; when that succeeds, clears the auth,
        target user and working hours stores and the persist flag, in that
        order. A failed call is swallowed and changes nothing. */
    method Logout(accepted: bool)
      modifies this
      ensures Snap() == AfterLogout(old(Snap()), accepted)
      ensures events == old(events) + LogoutEvents(accepted)
    {
      events := events + [PostLogout];
      if accepted {
        auth := None;
        events := events + [DispatchLogout];
        targetUser := None;
        events := events + [ClearUser];
        var hours := WorkingHoursReducer.Reduce(workingHours, WorkingHoursReducer.SetWorkingHours(None));
        workingHours := hours.state;
        events := events + [ClearWorkingHours];
        persist := false;
        events := events + [PersistOff];
      }
    }

    /** `refresh`: a non-empty body that decodes logs the user in with the
        new token and returns it; an empty body or a token that does not
        decode gives `null` and changes nothing; an HTTP failure logs out
        when `RefreshFailureLogsOut` says so and is rethrown either way. */
    method Refresh(reply: RefreshReply, decode: string -> Option<UserInfo>, logoutAccepted: bool)
      returns (result: RefreshResult)
      modifies this
      ensures reply.Data? && reply.body != "" && decode(reply.body).Some? ==>
        && result == Token(reply.body)
        && Snap() == old(Snap()).(auth := Some(AuthInfo(decode(reply.body).value, reply.body)))
        && events == old(events) + [PostRefresh, DispatchLogin(AuthInfo(decode(reply.body).value, reply.body))]
      ensures reply.Data? && (reply.body == "" || decode(reply.body).None?) ==>
        result == NoToken && Snap() == old(Snap()) && events == old(events) + [PostRefresh]
      ensures reply.Refused? ==>
        && result == Rethrown(HttpFailure(Some(reply.response)))
        && (RefreshFailureLogsOut(reply.response) ==>
              && Snap() == AfterLogout(old(Snap()), logoutAccepted)
              && events == old(events) + [PostRefresh] + LogoutEvents(logoutAccepted))
        && (!RefreshFailureLogsOut(reply.response) ==> Snap() == old(Snap()) && events == old(events) + [PostRefresh])
      ensures reply.NetworkDown? ==>
        result == Rethrown(HttpFailure(None)) && Snap() == old(Snap()) && events == old(events) + [PostRefresh]
    {
      events := events + [PostRefresh];
      match reply
      case Data(body) =>
        if body != "" {
          var decoded := decode(body);
          if decoded.Some? {
            var login := AuthInfo(decoded.value, body);
            auth := Some(login);
            events := events + [DispatchLogin(login)];
            return Token(body);
          }
          return NoToken;
        }
        return NoToken;
      case Refused(response) =>
        if RefreshFailureLogsOut(response) {
          Logout(logoutAccepted);
        }
        return Rethrown(HttpFailure(Some(response)));
      case NetworkDown =>
        return Rethrown(HttpFailure(None));
    }

    /** The request interceptor: adds "Bearer <token>" only when the request
        has no Authorization header and a token is held. */
    method AttachToken(req: PendingRequest)
      modifies req
      ensures req.retry == old(req.retry)
      ensures HasHeader(old(req.authorization)) ==> req.authorization == old(req.authorization)
      ensures !HasHeader(old(req.authorization)) && auth.Some? && auth.value.accessToken != "" ==>
        req.authorization == Some("Bearer " + auth.value.accessToken)
      ensures !(auth.Some? && auth.value.accessToken != "") ==> req.authorization == old(req.authorization)
    {
      if !HasHeader(req.authorization) && auth.Some? && auth.value.accessToken != "" {
        req.authorization := Some("Bearer " + auth.value.accessToken);
      }
    }

    /** The response interceptor's error branch. A 401 or 403 on a request
        not yet retried marks it and refreshes: a new token re-sends it with
        that token, `null` rejects the original error, and a refresh that
        throws logs out when the error carries a status of 400 or more and
        rejects with that error. Any other failure is rejected; a 403 on a
        request already retried logs out first. */
    method OnError(req: PendingRequest, failure: HttpFailure, reply: RefreshReply,
                   decode: string -> Option<UserInfo>, logoutAccepted: bool)
      returns (next: Next, refreshed: bool)
      modifies this, req
      ensures refreshed <==> IsAuthError(failure) && !old(req.retry)
      ensures req.retry == (old(req.retry) || refreshed)
      ensures next.Resend? ==> refreshed && reply.Data? && reply.body != "" && decode(reply.body).Some?
      ensures !next.Resend? ==> req.authorization == old(req.authorization)
      ensures !refreshed ==>
        && next == Reject(failure)
        && Snap() == AfterUnrefreshed(old(Snap()), failure, old(req.retry), logoutAccepted)
        && events == old(events) + UnrefreshedEvents(failure, old(req.retry), logoutAccepted)
      ensures refreshed && reply.Data? && reply.body != "" && decode(reply.body).Some? ==>
        var login := AuthInfo(decode(reply.body).value, reply.body);
        && next == Resend
        && req.authorization == Some("Bearer " + reply.body)
        && Snap() == old(Snap()).(auth := Some(login))
        && events == old(events) + [PostRefresh, DispatchLogin(login)]
      ensures refreshed && reply.Data? && (reply.body == "" || decode(reply.body).None?) ==>
        next == Reject(failure) && Snap() == old(Snap()) && events == old(events) + [PostRefresh]
      ensures refreshed && reply.NetworkDown? ==>
        next == Reject(HttpFailure(None)) && Snap() == old(Snap()) && events == old(events) + [PostRefresh]
      ensures refreshed && reply.Refused? ==>
        && next == Reject(HttpFailure(Some(reply.response)))
        && Snap() == AfterRefused(old(Snap()), reply.response, logoutAccepted)
        && events == old(events) + RefusedEvents(reply.response, logoutAccepted)
    {
      if IsAuthError(failure) && !req.retry {
        req.retry := true;
        refreshed := true;
        var result := Refresh(reply, decode, logoutAccepted);
        match result {
          case Token(t) =>
            req.authorization := Some("Bearer " + t);
            next := Resend;
          case NoToken =>
            next := Reject(failure);
          case Rethrown(err) =>
            if err.response.Some? && err.response.value.status >= 400 {
              Logout(logoutAccepted);
            }
            next := Reject(err);
        }
        return;
      }
      refreshed := false;
      if failure.response.Some? && failure.response.value.status == 403 && req.retry {
        Logout(logoutAccepted);
      }
      next := Reject(failure);
    }

    /** One request through the private client: sent with the token
        attached, and on an error handed to the response interceptor, which
        may re-send it once. `first` and `second` are the server's answers to
        the two sends (`None` for success). */
    method Execute(req: PendingRequest, first: Option<HttpFailure>, second: Option<HttpFailure>,
                   reply: RefreshReply, decode: string -> Option<UserInfo>, logoutAccepted: bool)
      returns (settled: Settled, sends: nat, refreshes: nat)
      modifies this, req
      ensures 1 <= sends <= 2 && refreshes <= 1
      ensures sends == 2 ==> refreshes == 1
      ensures sends == 2 <==>
        first.Some? && IsAuthError(first.value) && !old(req.retry)
        && reply.Data? && reply.body != "" && decode(reply.body).Some?
      ensures sends == 2 ==> settled == (if second.None? then Resolved else Rejected(second.value))
      ensures first.None? ==> Snap() == old(Snap()) && events == old(events)
      ensures first.Some? && !(IsAuthError(first.value) && !old(req.retry)) ==>
        && Snap() == AfterUnrefreshed(old(Snap()), first.value, old(req.retry), logoutAccepted)
        && events == old(events) + UnrefreshedEvents(first.value, old(req.retry), logoutAccepted)
      ensures first.Some? && IsAuthError(first.value) && !old(req.retry) ==>
        && (reply.Data? && (reply.body == "" || decode(reply.body).None?) ==>
              settled == Rejected(first.value) && Snap() == old(Snap()) && events == old(events) + [PostRefresh])
        && (reply.NetworkDown? ==>
              settled == Rejected(HttpFailure(None)) && Snap() == old(Snap()) && events == old(events) + [PostRefresh])
        && (reply.Refused? ==>
              && settled == Rejected(HttpFailure(Some(reply.response)))
              && Snap() == AfterRefused(old(Snap()), reply.response, logoutAccepted)
              && events == old(events) + RefusedEvents(reply.response, logoutAccepted))
      ensures sends == 2 && reply.Data? && decode(reply.body).Some? ==>
        var login := AuthInfo(decode(reply.body).value, reply.body);
        var resent := old(Snap()).(auth := Some(login));
        && req.authorization == Some("Bearer " + reply.body)
        && (second.None? ==> Snap() == resent && events == old(events) + [PostRefresh, DispatchLogin(login)])
        && (second.Some? ==>
              && Snap() == AfterUnrefreshed(resent, second.value, true, logoutAccepted)
              && events == old(events) + [PostRefresh, DispatchLogin(login)] + UnrefreshedEvents(second.value, true, logoutAccepted))
      ensures req.retry == (old(req.retry) || refreshes == 1)
      ensures old(req.retry) ==> refreshes == 0 && sends == 1
      ensures first.None? ==> settled == Resolved && sends == 1 && refreshes == 0
      ensures first.Some? && !IsAuthError(first.value) ==> settled == Rejected(first.value) && refreshes == 0
    {
      AttachToken(req);
      sends := 1;
      refreshes := 0;
      if first.None? {
        return Resolved, sends, refreshes;
      }
      var next, refreshed := OnError(req, first.value, reply, decode, logoutAccepted);
      if refreshed {
        refreshes := 1;
      }
      if next.Reject? {
        return Rejected(next.failure), sends, refreshes;
      }
      AttachToken(req);
      sends := 2;
      if second.None? {
        return Resolved, sends, refreshes;
      }
      var again, refreshedAgain := OnError(req, second.value, reply, decode, logoutAccepted);
      refreshes := refreshes + if refreshedAgain then 1 else 0;
      settled := Rejected(again.failure);
    }
  }
}
