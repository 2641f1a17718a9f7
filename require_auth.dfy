/** The authentication gate in front of the API, backend/middleware/requireAuth.js:
    a sequence of checks, each of which can end the request. Token
    verification is not part of this model; it enters as a function from
    the token text to its outcome. */
module RequireAuth {
  import opened Wrappers
  import opened Text
  import opened Accounts

  /** What `jwt.verify` does with a token: decodes it (with `userInfo._id`
      when the payload carries one), or fails with a `TokenExpiredError`, a
      `JsonWebTokenError`, or some other error. */
  datatype Verified = Decoded(userId: Option<Id>) | Expired | Malformed | OtherFailure

  /** The gate lets the request through with `req.user` and `req.roles` set,
      or stops it with a status and message, clearing the `jwt` cookie on the way. */
  datatype Outcome =
    | Pass(userId: Id, user: Account, roles: seq<string>)
    | Stop(status: int, message: string, clearCookie: bool)

  const Prefix := "Bearer "

  /** `authorization.split(' ')[1]`: the second space-separated piece. */
  function BearerToken(header: string): string {
    var parts := Split(header, ' ');
    if |parts| >= 2 then parts[1] else ""
  }

  /** Each check of the gate, in order. */
  function Gate(authorization: Option<string>, verify: string -> Verified, users: map<Id, Account>): (r: Outcome)
    ensures authorization.None? || !(Prefix <= authorization.value) ==>
      r == Stop(401, "Request is not authorized", false)
    ensures authorization.Some? && Prefix <= authorization.value && BearerToken(authorization.value) == "" ==>
      r == Stop(401, "Request is not authorized", false)
    ensures r.Stop? && r.clearCookie <==> r == Stop(400, "Your account has been blocked", true)
    ensures authorization.Some? && Prefix <= authorization.value ==>
      var token := BearerToken(authorization.value);
      token != "" && verify(token).Decoded? && verify(token).userId.Some?
      && verify(token).userId.value in users && !users[verify(token).userId.value].active
      ==> r == Stop(400, "Your account has been blocked", true)
    ensures r.Pass? <==>
      && authorization.Some? && Prefix <= authorization.value
      && var token := BearerToken(authorization.value);
      && token != ""
      && verify(token).Decoded? && verify(token).userId.Some?
      && verify(token).userId.value in users
      && users[verify(token).userId.value].active
    ensures r.Pass? ==>
      && r.userId == verify(BearerToken(authorization.value)).userId.value
      && r.user == users[r.userId]
      && r.roles == r.user.roles
  {
    if authorization.None? || !(Prefix <= authorization.value) then Stop(401, "Request is not authorized", false)
    else
      var token := BearerToken(authorization.value);
      if token == "" then Stop(401, "Request is not authorized", false)
      else match verify(token)
        case Expired => Stop(403, "Forbidden token expired", false)
        case Malformed => Stop(403, "Invalid token", false)
        case OtherFailure => Stop(403, "Token verification failed", false)
        case Decoded(userId) =>
          if userId.None? then Stop(401, "Invalid token content", false)
          else if userId.value !in users then Stop(401, "Unauthorized user not found", false)
          else
            var user := users[userId.value];
            if !user.active then Stop(400, "Your account has been blocked", true)
            else Pass(userId.value, user, user.roles)
  }

  /** The verification failures map to 403 with their own messages. */
  lemma VerifyFailures(header: string, verify: string -> Verified, users: map<Id, Account>)
    requires Prefix <= header && BearerToken(header) != ""
    ensures verify(BearerToken(header)) == Expired ==>
      Gate(Some(header), verify, users) == Stop(403, "Forbidden token expired", false)
    ensures verify(BearerToken(header)) == Malformed ==>
      Gate(Some(header), verify, users) == Stop(403, "Invalid token", false)
    ensures verify(BearerToken(header)) == OtherFailure ==>
      Gate(Some(header), verify, users) == Stop(403, "Token verification failed", false)
  {
  }

  /** A token without a user id, or for an unknown user, is a 401. */
  lemma UnknownUser(header: string, verify: string -> Verified, users: map<Id, Account>)
    requires Prefix <= header && BearerToken(header) != ""
    requires verify(BearerToken(header)).Decoded?
    ensures verify(BearerToken(header)).userId.None? ==>
      Gate(Some(header), verify, users) == Stop(401, "Invalid token content", false)
    ensures verify(BearerToken(header)).userId.Some? && verify(BearerToken(header)).userId.value !in users ==>
      Gate(Some(header), verify, users) == Stop(401, "Unauthorized user not found", false)
  {
  }

  /** For "Bearer <rest>" the token is `rest` up to its first space; it is
      all of `rest` when `rest` has no space. */
  lemma {:induction false} TokenOfHeader(rest: string)
    ensures Prefix <= Prefix + rest
    ensures ' ' !in rest ==> BearerToken(Prefix + rest) == rest
    ensures ' ' in rest ==> SplitFirst(rest, ' ').Some? && BearerToken(Prefix + rest) == SplitFirst(rest, ' ').value.0
  {
    var bearer := "Bearer";
    assert ' ' !in bearer;
    assert Prefix + rest == bearer + [' '] + rest;
    SplitAt(bearer, ' ', rest);
    match SplitFirst(rest, ' ')
    case None =>
      SplitWithoutSeparator(rest, ' ');
    case Some((a, b)) =>
      SplitAt(a, ' ', b);
  }

  /** "Bearer " alone, and "Bearer " followed by a second space, carry an
      empty token and are turned away with 401 whatever follows. */
  lemma EmptyTokens(rest: string, verify: string -> Verified, users: map<Id, Account>)
    ensures BearerToken(Prefix) == "" && BearerToken(Prefix + " " + rest) == ""
    ensures Gate(Some(Prefix), verify, users) == Stop(401, "Request is not authorized", false)
    ensures Gate(Some(Prefix + " " + rest), verify, users) == Stop(401, "Request is not authorized", false)
  {
    TokenOfHeader("");
    assert Prefix + "" == Prefix;
    var spaced := " " + rest;
    TokenOfHeader(spaced);
    assert spaced == [] + [' '] + rest;
    SplitFirstAt([], ' ', rest);
    assert Prefix + " " + rest == Prefix + spaced;
  }
}
