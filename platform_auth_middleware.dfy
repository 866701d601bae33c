/**
 * `requireSuperAdmin`: verifies the bearer token of a platform request and
 * admits it when the `role` claim is "SUPER_ADMIN", handing on the whole
 * decoded claim object as the request context.
 */
module PlatformAuthMiddleware {
  import opened Base
  import opened AuthMiddleware
  import PlatformAuth
  import TenantAuth
  import opened Schema

  function RequireSuperAdmin(header: Option<string>, verify: string -> Option<Claims>): (r: Gate)
    ensures !Filled(header) ==> r == Deny(401, "No token")
    ensures Filled(header) && (TokenOf(header.value).None? || verify(TokenOf(header.value).value).None?) ==>
              r == Deny(401, "Invalid token")
    ensures r.Pass? <==>
              Filled(header) && TokenOf(header.value).Some? && verify(TokenOf(header.value).value).Some? &&
              Field(verify(TokenOf(header.value).value).value, "role") == Some(JStr("SUPER_ADMIN"))
    ensures r.Pass? ==> r.user == verify(TokenOf(header.value).value).value
    ensures Filled(header) && TokenOf(header.value).Some? && verify(TokenOf(header.value).value).Some? &&
            Field(verify(TokenOf(header.value).value).value, "role") != Some(JStr("SUPER_ADMIN")) ==>
              r == Deny(403, "Forbidden")
  {
    if !Filled(header) then Deny(401, "No token")
    else
      var token := TokenOf(header.value);
      if token.None? then Deny(401, "Invalid token")
      else
        match verify(token.value)
        case None => Deny(401, "Invalid token")
        case Some(decoded) =>
          if Field(decoded, "role") != Some(JStr("SUPER_ADMIN")) then Deny(403, "Forbidden")
          else Pass(decoded)
  }

  /** A token signed at super-admin login is admitted with its full payload as context. */
  lemma AdminTokenAdmitted(scheme: string, token: string, verify: string -> Option<Claims>, a: Id)
    requires ' ' !in scheme && ' ' !in token
    requires verify(token) == Some(PlatformAuth.AdminClaims(a))
    ensures RequireSuperAdmin(Some(scheme + " " + token), verify) == Pass(PlatformAuth.AdminClaims(a))
  {
    BearerToken(scheme, token);
  }

  /** A token signed at tenant login has no `role` claim and is refused with 403. */
  lemma TenantTokenForbidden(scheme: string, token: string, verify: string -> Option<Claims>, u: Id, user: User)
    requires ' ' !in scheme && ' ' !in token
    requires verify(token) == Some(TenantAuth.TokenClaims(u, user))
    ensures RequireSuperAdmin(Some(scheme + " " + token), verify) == Deny(403, "Forbidden")
  {
    BearerToken(scheme, token);
    assert "role" !in TenantAuth.TokenClaims(u, user);
  }

  /** A super-admin token has no `type` claim, so the tenant middleware refuses it with 403. */
  lemma AdminTokenRefusedByTenantGate(scheme: string, token: string, verify: string -> Option<Claims>, a: Id)
    requires ' ' !in scheme && ' ' !in token
    requires verify(token) == Some(PlatformAuth.AdminClaims(a))
    ensures Authenticate(Some(scheme + " " + token), verify) == Deny(403, "Invalid access type")
  {
    BearerToken(scheme, token);
    assert "type" !in PlatformAuth.AdminClaims(a);
  }
}
