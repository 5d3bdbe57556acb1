/** The permission gate in front of the protected routes.

    A request passes when its bearer token validates and, unless the route
    needs no permission, the token's permission claim lists the route's
    permission, compared without regard to case. Extracting the token from the
    header, validating it and the case-insensitive comparison are library
    code; they come in as parameters. */
module AuthMiddleware {
  import opened Wrappers

  /** One element of the token's permission claim as decoded from JSON. */
  datatype ClaimValue = StringValue(text: string) | OtherValue

  /** The claims of a validated token; `permissions` is None when the claim
      is missing or is not a list. */
  datatype Claims = Claims(userId: string, role: string, permissions: Option<seq<ClaimValue>>)

  datatype Decision = Proceed | Refuse(status: int, message: string)

  /** What the gate leaves behind: the claims it stored for the handlers, and
      whether the request goes on. */
  datatype Outcome = Outcome(userInfo: Option<Claims>, decision: Decision)

  const MissingHeader: string := "Missing Authorization Header"
  const InvalidTokenFormat: string := "Invalid Token Format"
  const InvalidToken: string := "Invalid or Expired Token"
  const InvalidPermissionsData: string := "Invalid permissions data in token"
  const NoPermissionPrefix: string := "You do not have permission: "

  /** Some string element of the claim names the permission. */
  predicate Grants(perms: seq<ClaimValue>, required: string, equalFold: (string, string) -> bool) {
    exists i :: 0 <= i < |perms| && perms[i].StringValue? && equalFold(perms[i].text, required)
  }

  /** The search over the claim, stopping at the first match; elements that
      are not strings are skipped. */
  method HasPermission(perms: seq<ClaimValue>, required: string, equalFold: (string, string) -> bool)
    returns (has: bool)
    ensures has <==> Grants(perms, required, equalFold)
  {
    has := false;
    var i := 0;
    while i < |perms|
      invariant 0 <= i <= |perms|
      invariant !has
      invariant forall j :: 0 <= j < i ==> !(perms[j].StringValue? && equalFold(perms[j].text, required))
    {
      if perms[i].StringValue? && equalFold(perms[i].text, required) {
        has := true;
        break;
      }
      i := i + 1;
    }
  }

  /** The gate for a route that needs `required` ("" for none). */
  method Rbac(required: string, header: string, extract: string -> string, validate: string -> Option<Claims>,
              equalFold: (string, string) -> bool)
    returns (o: Outcome)
    ensures header == "" ==> o == Outcome(None, Refuse(401, MissingHeader))
    ensures header != "" && extract(header) == "" ==> o == Outcome(None, Refuse(401, InvalidTokenFormat))
    ensures header != "" && extract(header) != "" && validate(extract(header)).None? ==>
              o == Outcome(None, Refuse(401, InvalidToken))
    ensures header != "" && extract(header) != "" && validate(extract(header)).Some? ==>
              var claims := validate(extract(header)).value;
              o.userInfo == Some(claims) &&
              if required == "" then o.decision == Proceed
              else if claims.permissions.None? then o.decision == Refuse(403, InvalidPermissionsData)
              else if Grants(claims.permissions.value, required, equalFold) then o.decision == Proceed
              else o.decision == Refuse(403, NoPermissionPrefix + required)
  {
    if header == "" {
      return Outcome(None, Refuse(401, MissingHeader));
    }
    var token := extract(header);
    if token == "" {
      return Outcome(None, Refuse(401, InvalidTokenFormat));
    }
    var claims := validate(token);
    if claims.None? {
      return Outcome(None, Refuse(401, InvalidToken));
    }
    var userInfo := Some(claims.value);
    if required == "" {
      return Outcome(userInfo, Proceed);
    }
    if claims.value.permissions.None? {
      return Outcome(userInfo, Refuse(403, InvalidPermissionsData));
    }
    var has := HasPermission(claims.value.permissions.value, required, equalFold);
    if !has {
      return Outcome(userInfo, Refuse(403, NoPermissionPrefix + required));
    }
    o := Outcome(userInfo, Proceed);
  }

  /** Granting does not depend on where the permission sits in the claim, nor
      on what else the claim holds. */
  lemma {:induction false} GrantsSurvivesExtension(perms: seq<ClaimValue>, more: seq<ClaimValue>, required: string,
                                                   equalFold: (string, string) -> bool)
    requires Grants(perms, required, equalFold)
    ensures Grants(more + perms, required, equalFold) && Grants(perms + more, required, equalFold)
  {
    var i :| 0 <= i < |perms| && perms[i].StringValue? && equalFold(perms[i].text, required);
    assert (more + perms)[|more| + i] == perms[i];
    assert (perms + more)[i] == perms[i];
  }
}
