/**
 * How tokens from the tenant login fare at `authMiddleware`. The login
 * signs `type: "TENANT_USER"`; the middleware admits only "TENANT", so
 * every tenant token is refused. `AuthenticateTenantUser` is the
 * middleware admitting the type the login issues.
 */
module TenantTokenGate {
  import opened Base
  import opened Schema
  import opened AuthMiddleware
  import TenantAuth

  /** As written: a token signed by the tenant login is refused with 403. */
  lemma TenantLoginTokenRefused(scheme: string, token: string, verify: string -> Option<Claims>, u: Id, user: User)
    requires ' ' !in scheme && ' ' !in token
    requires verify(token) == Some(TenantAuth.TokenClaims(u, user))
    ensures Authenticate(Some(scheme + " " + token), verify) == Deny(403, "Invalid access type")
  {
    BearerToken(scheme, token);
  }

  /** The middleware admitting the principal type the tenant login signs. */
  function AuthenticateTenantUser(header: Option<string>, verify: string -> Option<Claims>): (r: Gate)
    ensures !Filled(header) ==> r == Deny(401, "No token provided")
    ensures Filled(header) && (TokenOf(header.value).None? || verify(TokenOf(header.value).value).None?) ==>
              r == Deny(401, "Invalid or expired token")
    ensures Filled(header) && TokenOf(header.value).Some? && verify(TokenOf(header.value).value).Some? &&
            Field(verify(TokenOf(header.value).value).value, "type") != Some(JStr(TenantAuth.ActorType)) ==>
              r == Deny(403, "Invalid access type")
    ensures r.Pass? <==>
              Filled(header) && TokenOf(header.value).Some? && verify(TokenOf(header.value).value).Some? &&
              Field(verify(TokenOf(header.value).value).value, "type") == Some(JStr(TenantAuth.ActorType))
    ensures r.Pass? ==> r.user == Project(verify(TokenOf(header.value).value).value)
  {
    AuthenticateAs(header, verify, TenantAuth.ActorType)
  }

  /**
   * A token signed by the tenant login is admitted, and the context names
   * the user, the user's tenant and the user's role.
   */
  lemma TenantLoginTokenAdmitted(scheme: string, token: string, verify: string -> Option<Claims>, u: Id, user: User)
    requires ' ' !in scheme && ' ' !in token
    requires verify(token) == Some(TenantAuth.TokenClaims(u, user))
    ensures AuthenticateTenantUser(Some(scheme + " " + token), verify).Pass?
    ensures var ctx := AuthenticateTenantUser(Some(scheme + " " + token), verify).user;
            ctx.Keys == {"userId", "tenantId", "roleId"} &&
            ctx["userId"] == JStr(u) &&
            ctx["tenantId"] == TenantAuth.IdOrNull(user.tenantId) &&
            ctx["roleId"] == TenantAuth.IdOrNull(user.roleId)
  {
    BearerToken(scheme, token);
    var c := TenantAuth.TokenClaims(u, user);
    assert c.Keys * ContextClaims == {"userId", "tenantId", "roleId"};
  }
}
