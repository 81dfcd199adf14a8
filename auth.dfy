/** The authentication and authorization middleware. Token signatures and
    expiry are checked by the JWT library, which stays outside the model: it
    is the `verify` parameter, from a token to what the library reports. */
module Auth {
  import opened Common
  import opened Users
  import opened Projects

  /** What `jwt.verify` yields: the decoded user id, or the kind of error it throws. */
  datatype Verified = Decoded(id: UserId) | TokenExpired | InvalidToken | OtherFailure

  const BearerPrefix: string := "Bearer "

  /** The token of an `Authorization` header: the text after `Bearer `, or the
      whole header when it has no such prefix. */
  function BearerToken(header: string): (t: string)
    ensures |header| >= 7 && header[..7] == BearerPrefix ==> t == header[7..]
    ensures !(|header| >= 7 && header[..7] == BearerPrefix) ==> t == header
  {
    if |header| >= |BearerPrefix| && header[..|BearerPrefix|] == BearerPrefix then header[|BearerPrefix|..]
    else header
  }

  /** A header built as `Bearer <token>` yields the token back, whatever it is. */
  lemma BearerRoundTrip(token: string)
    ensures BearerToken(BearerPrefix + token) == token
  {
    assert (BearerPrefix + token)[..7] == BearerPrefix;
    assert (BearerPrefix + token)[7..] == token;
  }

  /** `authenticate`: the user the request acts for, or 401 for a missing or
      empty token, a token the library rejects as expired or invalid, an
      unknown user or an account that is not active; any other library error
      is a 500. */
  function Authenticate(header: Option<string>, verify: string -> Verified, users: map<UserId, User>)
    : (r: Result<UserId>)
    ensures r.Ok? <==>
      && GivenText(header) && BearerToken(header.value) != ""
      && verify(BearerToken(header.value)).Decoded?
      && verify(BearerToken(header.value)).id in users
      && users[verify(BearerToken(header.value)).id].status == Active
    ensures r.Ok? ==> r.value == verify(BearerToken(header.value)).id
    ensures r == Err(ServerError) <==>
      GivenText(header) && BearerToken(header.value) != "" && verify(BearerToken(header.value)) == OtherFailure
    ensures r.Err? ==> r.code == Unauthorized || r.code == ServerError
  {
    if !GivenText(header) then Err(Unauthorized)
    else
      var token := BearerToken(header.value);
      if token == "" then Err(Unauthorized)
      else
        match verify(token)
        case TokenExpired => Err(Unauthorized)
        case InvalidToken => Err(Unauthorized)
        case OtherFailure => Err(ServerError)
        case Decoded(id) =>
          if id !in users then Err(Unauthorized)
          else if users[id].status != Active then Err(Unauthorized)
          else Ok(id)
  }

  /** `optionalAuth`: never refuses the request; the caller is known exactly
      when `authenticate` would have let the same request through. */
  function OptionalAuth(header: Option<string>, verify: string -> Verified, users: map<UserId, User>)
    : (r: Option<UserId>)
    ensures r.Some? <==> Authenticate(header, verify, users).Ok?
    ensures r.Some? ==> r.value == Authenticate(header, verify, users).value
  {
    if !GivenText(header) then None
    else
      var token := BearerToken(header.value);
      if token == "" then None
      else
        match verify(token)
        case Decoded(id) => if id in users && users[id].status == Active then Some(id) else None
        case _ => None
  }

  /** Only an active account can act: whatever `authenticate` lets through is
      a stored, active user. */
  lemma AuthenticatedUserIsActive(header: Option<string>, verify: string -> Verified, users: map<UserId, User>)
    requires Authenticate(header, verify, users).Ok?
    ensures Authenticate(header, verify, users).value in users
    ensures users[Authenticate(header, verify, users).value].status == Active
  {
  }

  /** `authorizeProjectOwner`: 404 without a project, 403 for anyone but its owner. */
  function AuthorizeProjectOwner(project: Option<Project>, caller: UserId): (r: Outcome)
    ensures project.None? <==> r == Failed(NotFound)
    ensures r == Done <==> project.Some? && project.value.postedBy == caller
    ensures project.Some? && project.value.postedBy != caller <==> r == Failed(Forbidden)
  {
    if project.None? then Failed(NotFound)
    else if project.value.postedBy != caller then Failed(Forbidden)
    else Done
  }

  /** `requireStudent`: 403 unless the account is a student's. */
  function RequireStudent(user: User): (r: Outcome)
    ensures r == Done <==> user.isStudent
    ensures r != Done ==> r == Failed(Forbidden)
  {
    if !user.isStudent then Failed(Forbidden) else Done
  }

  /** `requireVerified`: 403 unless the account is verified. */
  function RequireVerified(user: User): (r: Outcome)
    ensures r == Done <==> user.isVerified
    ensures r != Done ==> r == Failed(Forbidden)
  {
    if !user.isVerified then Failed(Forbidden) else Done
  }
}
