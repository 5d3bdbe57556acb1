/** Sign-in and sign-out.

    Login resolves the account by user name or, failing that, by e-mail, then
    checks the password, then the active flag, and only then fetches the
    role's permissions and signs a token. The password hash check, the token
    signer and the expiry read from a token are library code; they come in
    as parameters. The account store and the permission table are maps. */
module Auth {
  import opened Wrappers
  import opened Identifiers
  import opened Records
  import opened TokenBlacklist

  datatype LoginRequest = LoginRequest(username: string, email: string, password: string)

  datatype LoginResponse = LoginResponse(token: string, refreshToken: string, user: UserResponse)

  const IdentifierRequired: string := "username or email is required"
  const InvalidIdentifier: string := "invalid username or email"
  const InvalidPassword: string := "invalid password"
  const AccountInactive: string := "account is inactive, please contact admin"
  const FailedPermissions: string := "failed to fetch permissions"
  const FailedToken: string := "failed to generate token"
  const FailedExpiration: string := "failed to get token expiration"

  const MissingHeader: string := "Missing Authorization Header"
  const InvalidHeaderFormat: string := "Invalid Authorization Header format"
  const EmptyToken: string := "Token is empty"
  const BearerPrefix: string := "Bearer "

  /** The account is looked up by the user name, or by the e-mail when no
      user name is given. */
  function LoginIdentifier(req: LoginRequest): (identifier: string)
    ensures identifier == "" <==> req.username == "" && req.email == ""
    ensures req.username != "" ==> identifier == req.username
    ensures req.username == "" ==> identifier == req.email
  {
    if req.username != "" then req.username else req.email
  }

  /** The sign-in guard chain. `accounts` is the lookup by user name or
      e-mail, `permissions` the permission names by role, `passwordMatches`
      the hash check and `sign` the token signer (None when signing fails).
      A role missing from `permissions` stands for a failed permission query
      or scan; a role that has no permission rows is present and maps to `[]`,
      which the source returns without error. */
  method Login(req: LoginRequest, accounts: map<string, Account>, permissions: map<Uuid, seq<string>>,
               passwordMatches: (string, string) -> bool,
               sign: (Uuid, string, string, seq<string>) -> Option<string>)
    returns (r: Result<LoginResponse>)
    ensures LoginIdentifier(req) == "" ==> r == Err(IdentifierRequired)
    ensures LoginIdentifier(req) != "" && LoginIdentifier(req) !in accounts ==> r == Err(InvalidIdentifier)
    ensures LoginIdentifier(req) != "" && LoginIdentifier(req) in accounts ==>
              var a := accounts[LoginIdentifier(req)];
              if !passwordMatches(req.password, a.user.passwordHash) then r == Err(InvalidPassword)
              else if !a.user.isActive then r == Err(AccountInactive)
              else if a.user.roleId !in permissions then r == Err(FailedPermissions)
              else
                var perms := permissions[a.user.roleId];
                match sign(a.user.id, a.user.username, a.roleName, perms)
                case None => r == Err(FailedToken)
                case Some(token) =>
                  r == Ok(LoginResponse(token, "", UserResponse(a.user.id, a.user.username, a.user.fullName, a.roleName, perms)))
    ensures r.Ok? ==> LoginIdentifier(req) in accounts && accounts[LoginIdentifier(req)].user.isActive &&
                      passwordMatches(req.password, accounts[LoginIdentifier(req)].user.passwordHash)
  {
    var identifier := req.username;
    if identifier == "" {
      identifier := req.email;
    }
    if identifier == "" {
      return Err(IdentifierRequired);
    }
    if identifier !in accounts {
      return Err(InvalidIdentifier);
    }
    var account := accounts[identifier];
    var user, roleName := account.user, account.roleName;
    if !passwordMatches(req.password, user.passwordHash) {
      return Err(InvalidPassword);
    }
    if !user.isActive {
      return Err(AccountInactive);
    }
    if user.roleId !in permissions {
      return Err(FailedPermissions);
    }
    var perms := permissions[user.roleId];
    var token := sign(user.id, user.username, roleName, perms);
    if token.None? {
      return Err(FailedToken);
    }
    r := Ok(LoginResponse(token.value, "", UserResponse(user.id, user.username, user.fullName, roleName, perms)));
  }

  /** Revokes the token until its own expiry; `expiry` is what reading the
      expiry out of the token gives, None when it cannot be read. */
  method Logout(token: string, expiry: Option<Time>, revoked: TokenBlacklistManager) returns (r: Result<()>)
    modifies revoked
    ensures expiry.None? ==> r == Err(FailedExpiration) && revoked.blacklist == old(revoked.blacklist)
    ensures expiry.Some? ==> r == Ok(()) && revoked.blacklist == old(revoked.blacklist)[token := expiry.value]
  {
    if expiry.None? {
      return Err(FailedExpiration);
    }
    revoked.AddToken(token, expiry.value);
    r := Ok(());
  }

  /** The token of a sign-out request's Authorization header: what follows
      "Bearer ", which must be there and must be followed by something. */
  function BearerToken(header: string): (r: Result<string>)
    ensures header == "" ==> r == Err(MissingHeader)
    ensures header != "" && (|header| < 7 || header[..7] != BearerPrefix) ==> r == Err(InvalidHeaderFormat)
    ensures header == BearerPrefix ==> r == Err(EmptyToken)
    ensures r.Ok? <==> |header| > 7 && header[..7] == BearerPrefix
    ensures r.Ok? ==> r.value == header[7..] && BearerPrefix + r.value == header
  {
    if header == "" then Err(MissingHeader)
    else if |header| < 7 || header[..7] != BearerPrefix then Err(InvalidHeaderFormat)
    else if header[7..] == "" then Err(EmptyToken)
    else Ok(header[7..])
  }

  /** Whatever non-empty token a client puts after "Bearer " is the token
      signed out. */
  lemma BearerRoundTrip(token: string)
    requires token != ""
    ensures BearerToken(BearerPrefix + token) == Ok(token)
  {
    assert (BearerPrefix + token)[..7] == BearerPrefix;
    assert (BearerPrefix + token)[7..] == token;
  }

  /** The status of a sign-out request. */
  method LogoutEndpoint(header: string, expiry: Option<Time>, revoked: TokenBlacklistManager) returns (status: int)
    modifies revoked
    ensures BearerToken(header).Err? ==> status == 401 && revoked.blacklist == old(revoked.blacklist)
    ensures BearerToken(header).Ok? && expiry.None? ==> status == 500 && revoked.blacklist == old(revoked.blacklist)
    ensures BearerToken(header).Ok? && expiry.Some? ==>
              status == 200 && revoked.blacklist == old(revoked.blacklist)[BearerToken(header).value := expiry.value]
  {
    if header == "" {
      return 401;
    }
    if |header| < 7 || header[..7] != BearerPrefix {
      return 401;
    }
    var token := header[7..];
    if token == "" {
      return 401;
    }
    var r := Logout(token, expiry, revoked);
    if r.Err? {
      return 500;
    }
    status := 200;
  }

  /** The status of a sign-in request: a bad identifier or password is 401,
      an inactive account 403, any other error 500. */
  function LoginStatus(r: Result<LoginResponse>): (status: int)
    ensures r.Ok? <==> status == 200
    ensures status == 401 <==> r == Err(InvalidIdentifier) || r == Err(InvalidPassword)
    ensures status == 403 <==> r == Err(AccountInactive)
    ensures status in {200, 401, 403, 500}
  {
    match r
    case Ok(_) => 200
    case Err(e) =>
      if e == InvalidIdentifier || e == InvalidPassword then 401
      else if e == AccountInactive then 403
      else 500
  }

  /** A worked example, not a general property: a request without user
      name and e-mail is not singled out by the endpoint; it is answered 500,
      like a server fault. */
  lemma MissingIdentifierIsServerError()
    ensures LoginStatus(Err(IdentifierRequired)) == 500
  {
    assert IdentifierRequired != InvalidIdentifier && IdentifierRequired != InvalidPassword;
    assert IdentifierRequired != AccountInactive;
  }
}
