/**
 * `authMiddleware`: reads the bearer token of a request, verifies it and
 * projects the tenant request context. Token verification is an oracle
 * from the token text to its claims (`None` when the signature or the
 * expiry does not check).
 */
module AuthMiddleware {
  import opened Base

  /** What a guard does with a request: answer it, or pass it on with a request context. */
  datatype Gate = Deny(status: int, message: string) | Pass(user: Claims)

  /** `auth.split(" ")[1]`; `None` is `undefined`. */
  function TokenOf(header: string): (t: Option<string>)
    ensures t.Some? ==> ' ' !in t.value
  {
    var parts := Split(header, ' ');
    if |parts| >= 2 then Some(parts[1]) else None
  }

  /** The claims copied into the context; absent claims stay absent. */
  const ContextClaims: set<string> := {"userId", "tenantId", "roleId"}

  function Project(c: Claims): (u: Claims)
    ensures u.Keys == c.Keys * ContextClaims
    ensures forall k :: k in u ==> u[k] == c[k]
  {
    map k | k in c.Keys * ContextClaims :: c[k]
  }

  /** The principal type this middleware admits. */
  const TenantType: string := "TENANT"

  /** `authMiddleware` as written: it admits only tokens whose `type` claim is "TENANT". */
  function Authenticate(header: Option<string>, verify: string -> Option<Claims>): (r: Gate)
    ensures !Filled(header) ==> r == Deny(401, "No token provided")
    ensures Filled(header) && (TokenOf(header.value).None? || verify(TokenOf(header.value).value).None?) ==>
              r == Deny(401, "Invalid or expired token")
    ensures Filled(header) && TokenOf(header.value).Some? && verify(TokenOf(header.value).value).Some? &&
            Field(verify(TokenOf(header.value).value).value, "type") != Some(JStr(TenantType)) ==>
              r == Deny(403, "Invalid access type")
    ensures r.Pass? <==>
              Filled(header) && TokenOf(header.value).Some? && verify(TokenOf(header.value).value).Some? &&
              Field(verify(TokenOf(header.value).value).value, "type") == Some(JStr(TenantType))
    ensures r.Pass? ==> r.user == Project(verify(TokenOf(header.value).value).value)
  {
    AuthenticateAs(header, verify, TenantType)
  }

  /**
   * The middleware, parameterised by the principal type it admits: 401
   * without a header, 401 for a token that is missing or does not verify,
   * 403 for a verified token of another type, and otherwise the projected
   * context.
   */
  function AuthenticateAs(header: Option<string>, verify: string -> Option<Claims>, admitted: string): (r: Gate)
    ensures !Filled(header) ==> r == Deny(401, "No token provided")
    ensures Filled(header) && (TokenOf(header.value).None? || verify(TokenOf(header.value).value).None?) ==>
              r == Deny(401, "Invalid or expired token")
    ensures Filled(header) && TokenOf(header.value).Some? && verify(TokenOf(header.value).value).Some? &&
            Field(verify(TokenOf(header.value).value).value, "type") != Some(JStr(admitted)) ==>
              r == Deny(403, "Invalid access type")
    ensures Filled(header) && TokenOf(header.value).Some? && verify(TokenOf(header.value).value).Some? &&
            Field(verify(TokenOf(header.value).value).value, "type") == Some(JStr(admitted)) ==>
              r == Pass(Project(verify(TokenOf(header.value).value).value))
  {
    if !Filled(header) then Deny(401, "No token provided")
    else
      var token := TokenOf(header.value);
      // `jwt.verify(undefined)` throws as a failed verification does
      if token.None? then Deny(401, "Invalid or expired token")
      else
        match verify(token.value)
        case None => Deny(401, "Invalid or expired token")
        case Some(decoded) =>
          if Field(decoded, "type") != Some(JStr(admitted)) then Deny(403, "Invalid access type")
          else Pass(Project(decoded))
  }

  /**
   * The context carries no permission list, no tenant object and no
   * principal type, whichever type the middleware admits.
   */
  lemma ContextLacksPermissionsAndTenant(header: Option<string>, verify: string -> Option<Claims>, admitted: string)
    requires AuthenticateAs(header, verify, admitted).Pass?
    ensures "permissions" !in AuthenticateAs(header, verify, admitted).user
    ensures "tenant" !in AuthenticateAs(header, verify, admitted).user
    ensures "type" !in AuthenticateAs(header, verify, admitted).user
  {
  }

  /** The token is what follows the first space of a "Bearer <token>" header. */
  lemma BearerToken(scheme: string, token: string)
    requires ' ' !in scheme && ' ' !in token
    ensures TokenOf(scheme + " " + token) == Some(token)
  {
    SplitAtSeparator(scheme, token, ' ');
    SplitWithout(token, ' ');
  }

  lemma {:induction false} SplitAtSeparator(a: string, b: string, c: char)
    requires c !in a
    ensures Split(a + [c] + b, c) == [a] + Split(b, c)
  {
    if a == [] {
      assert a + [c] + b == [c] + b;
      assert ([c] + b)[1..] == b;
    } else {
      SplitAtSeparator(a[1..], b, c);
      assert (a + [c] + b)[1..] == a[1..] + [c] + b;
      assert [a[0]] + a[1..] == a;
    }
  }

  lemma {:induction false} SplitWithout(s: string, c: char)
    requires c !in s
    ensures Split(s, c) == [s]
  {
    if s != [] {
      SplitWithout(s[1..], c);
      assert [s[0]] + s[1..] == s;
    }
  }
}
