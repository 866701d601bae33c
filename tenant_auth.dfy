/**
 * Tenant-user login with account lockout, and tenant self-registration.
 * Password comparison and token signing are oracles: `compare(password,
 * hash)` and `sign(claims)`; `hash` stands for password hashing.
 */
module TenantAuth {
  import opened Base
  import opened Schema
  import opened Db
  import opened PlanService
  import opened Lockout
  import opened TenantController

  const ActorType: string := "TENANT_USER"

  // ------------------------------------------------------------------
  // tenantLogin
  // ------------------------------------------------------------------

  function LockOf(u: User): LockState {
    LockState(u.failedLoginCount, u.lockedUntil)
  }

  /** The row after `user.update({ data: { failedLoginCount, lockedUntil } })`. */
  function WithLock(u: User, s: LockState): (v: User)
    ensures v.email == u.email && v.password == u.password && v.isActive == u.isActive
    ensures v.tenantId == u.tenantId && v.roleId == u.roleId
    ensures LockOf(v) == s
  {
    u.(failedLoginCount := s.failedLoginCount, lockedUntil := s.lockedUntil)
  }

  /** A row `findFirst({ where: { email, isActive: true } })` may return. */
  predicate Candidate(users: map<Id, User>, f: IdFilter, u: Id) {
    u in users && users[u].isActive && Matches(f, users[u].email)
  }

  /**
   * The looked-up user. With an e-mail the unique column leaves at most one
   * candidate; without one (`undefined`) the condition is dropped and the
   * store returns some active user.
   */
  method FindActiveUser(st: Store, f: IdFilter) returns (u: Option<Id>)
    ensures u.Some? ==> Candidate(st.users, f, u.value)
    ensures u.None? ==> forall x :: x in st.users ==> !Candidate(st.users, f, x)
    ensures u.Some? && f.IdIs? && st.UserEmailsUnique() ==> forall x :: Candidate(st.users, f, x) ==> x == u.value
  {
    if exists x :: x in st.users && Candidate(st.users, f, x) {
      var x :| x in st.users && Candidate(st.users, f, x);
      u := Some(x);
    } else {
      u := None;
    }
  }

  /** `undefined` for a missing row reference, the id otherwise; `null` columns travel as JSON null. */
  function IdOrNull(id: Option<Id>): Json {
    if id.Some? then JStr(id.value) else JNull
  }

  /** The payload signed for a tenant user. */
  function TokenClaims(u: Id, user: User): (c: Claims)
    ensures Field(c, "type") == Some(JStr(ActorType))
    ensures Field(c, "userId") == Some(JStr(u))
    ensures c.Keys == {"userId", "tenantId", "roleId", "type"}
  {
    map["userId" := JStr(u), "tenantId" := IdOrNull(user.tenantId), "roleId" := IdOrNull(user.roleId),
        "type" := JStr(ActorType)]
  }

  function AttemptOf(u: Option<Id>, tenantId: Option<Id>, email: Option<Json>, success: bool, reason: string): LoginAttempt {
    LoginAttempt(ActorType, u, tenantId, email, success, reason)
  }

  method RecordAttempt(st: Store, a: LoginAttempt)
    requires st.Valid()
    modifies st`loginAttempts
    ensures st.Valid()
    ensures st.loginAttempts == old(st.loginAttempts) + [a]
  {
    st.loginAttempts := st.loginAttempts + [a];
  }

  method SetLock(st: Store, u: Id, s: LockState)
    requires st.Valid() && u in st.users
    modifies st`users
    ensures st.Valid()
    ensures st.users == old(st.users)[u := WithLock(old(st.users)[u], s)]
  {
    st.users := st.users[u := WithLock(st.users[u], s)];
  }

  /**
   * The outcome: the reply, the token on success, and the user the attempt
   * was made against (`None` when no user was found). Each path through
   * the handler appends exactly one login attempt, except the two that
   * fail before or inside the password comparison.
   */
  method TenantLogin(st: Store, email: Option<Json>, password: Option<Json>, now: int,
                     compare: (string, string) -> bool, sign: Claims -> string)
    returns (r: Reply, token: Option<string>, principal: Option<Id>)
    requires st.Valid()
    modifies st`users, st`loginAttempts
    ensures st.Valid()
    ensures token.Some? ==> r.status == 200
    ensures FilterOf(email).Rejected? ==>
              r == Reply(500, Some("Login failed")) && principal.None? &&
              st.users == old(st.users) && st.loginAttempts == old(st.loginAttempts)
    ensures !FilterOf(email).Rejected? && principal.None? ==>
              (forall x :: x in old(st.users) ==> !Candidate(old(st.users), FilterOf(email), x)) &&
              r == Reply(401, Some("Invalid credentials")) && token.None? && st.users == old(st.users) &&
              st.loginAttempts == old(st.loginAttempts) + [AttemptOf(None, None, email, false, "INVALID_EMAIL")]
    ensures principal.Some? ==>
              var u := principal.value;
              !FilterOf(email).Rejected? && Candidate(old(st.users), FilterOf(email), u) &&
              var user := old(st.users)[u];
              (IsLocked(LockOf(user), now) ==>
                 r == Reply(423, Some("Account is temporarily locked. Try again later.")) && token.None? &&
                 st.users == old(st.users) &&
                 st.loginAttempts == old(st.loginAttempts) + [AttemptOf(Some(u), user.tenantId, email, false, "ACCOUNT_LOCKED")]) &&
              (!IsLocked(LockOf(user), now) && !(password.Some? && password.value.JStr?) ==>
                 r == Reply(500, Some("Login failed")) && token.None? &&
                 st.users == old(st.users) && st.loginAttempts == old(st.loginAttempts))
    ensures principal.Some? && principal.value in old(st.users) ==>
              var u := principal.value;
              var user := old(st.users)[u];
              !IsLocked(LockOf(user), now) && password.Some? && password.value.JStr? ==>
                var ok := compare(password.value.s, user.password);
                st.users == old(st.users)[u := WithLock(user, Attempt(LockOf(user), now, ok))] &&
                (!ok ==>
                   r == Reply(401, Some("Invalid credentials")) && token.None? &&
                   st.loginAttempts == old(st.loginAttempts) + [AttemptOf(Some(u), user.tenantId, email, false, "INVALID_PASSWORD")]) &&
                (ok ==>
                   st.loginAttempts == old(st.loginAttempts) + [AttemptOf(Some(u), user.tenantId, email, true, "LOGIN_SUCCESS")] &&
                   (user.tenantId.None? ==> r == Reply(500, Some("Login failed")) && token.None?) &&
                   (user.tenantId.Some? ==>
                      r == Reply(200, Some("Login successful")) && token == Some(sign(TokenClaims(u, user)))))
  {
    token := None;
    var f := FilterOf(email);
    if f.Rejected? {
      return Reply(500, Some("Login failed")), None, None;
    }
    principal := FindActiveUser(st, f);
    if principal.None? {
      RecordAttempt(st, AttemptOf(None, None, email, false, "INVALID_EMAIL"));
      return Reply(401, Some("Invalid credentials")), None, None;
    }
    var u := principal.value;
    var user := st.users[u];
    if IsLocked(LockOf(user), now) {
      RecordAttempt(st, AttemptOf(Some(u), user.tenantId, email, false, "ACCOUNT_LOCKED"));
      return Reply(423, Some("Account is temporarily locked. Try again later.")), None, principal;
    }
    // bcrypt rejects a password that is not a string
    if !(password.Some? && password.value.JStr?) {
      return Reply(500, Some("Login failed")), None, principal;
    }
    var ok := compare(password.value.s, user.password);
    SetLock(st, u, Attempt(LockOf(user), now, ok));
    if !ok {
      RecordAttempt(st, AttemptOf(Some(u), user.tenantId, email, false, "INVALID_PASSWORD"));
      return Reply(401, Some("Invalid credentials")), None, principal;
    }
    RecordAttempt(st, AttemptOf(Some(u), user.tenantId, email, true, "LOGIN_SUCCESS"));
    // the answer reads `user.tenant.id`, which fails for a user without a tenant
    if user.tenantId.None? {
      return Reply(500, Some("Login failed")), None, principal;
    }
    r, token := Reply(200, Some("Login successful")), Some(sign(TokenClaims(u, user)));
  }

  // ------------------------------------------------------------------
  // tenantRegister
  // ------------------------------------------------------------------

  /** The rows the registration loop creates: one enabled row with source "PLAN" per plan module. */
  function PlanRows(t: Id, ms: set<Id>): (r: map<(Id, Id), TenantModule>)
    ensures r.Keys == RowKeys(t, ms)
    ensures forall k :: k in r ==> r[k] == TenantModule(true, Some("PLAN"))
  {
    map k | k in RowKeys(t, ms) :: TenantModule(true, Some("PLAN"))
  }

  /** The loop of the registration: one `create` per plan module, each adding one row. */
  method CreatePlanRows(before: map<(Id, Id), TenantModule>, t: Id, ms: set<Id>) returns (tms: map<(Id, Id), TenantModule>)
    ensures tms == before + PlanRows(t, ms)
  {
    var ids := Enumerate(ms);
    tms := before;
    var i := 0;
    while i < |ids|
      invariant 0 <= i <= |ids|
      invariant forall k :: k in tms <==> k in before || (k.0 == t && k.1 in ids[..i])
      invariant forall k :: k in tms ==>
                  tms[k] == if k.0 == t && k.1 in ids[..i] then TenantModule(true, Some("PLAN")) else before[k]
    {
      assert ids[..i + 1] == ids[..i] + [ids[i]];
      tms := tms[(t, ids[i]) := TenantModule(true, Some("PLAN"))];
      i := i + 1;
    }
    assert ids[..i] == ids;
  }

  /** The module rows of the registered tenant, for the TRIAL plan `p`. */
  method AddPlanRows(st: Store, t: Id, p: Id)
    requires st.Valid() && t in st.tenants
    modifies st`tenantModules
    ensures st.Valid()
    ensures st.tenantModules == old(st.tenantModules) + PlanRows(t, PlanModuleIds(st.planModules, p))
  {
    assert PlanModuleIds(st.planModules, p) <= st.modules.Keys by {
      assert st.PlanModulesValid();
    }
    var tms := CreatePlanRows(st.tenantModules, t, PlanModuleIds(st.planModules, p));
    st.SetTenantModules(tms);
  }

  /**
   * Missing fields give 400 and a registered e-mail 409, before any write.
   * The writes are not in a transaction: the tenant, its "Admin" role and
   * its admin user are created first, and a missing TRIAL plan then fails
   * the request with those rows in place and no subscription.
   */
  method TenantRegister(st: Store, tenantName: Option<string>, tenantType: Option<string>,
                        email: Option<string>, password: Option<string>, hash: string -> string, now: int)
    returns (r: Reply, tenantId: Option<Id>)
    requires st.Valid()
    modifies st`tenants, st`roles, st`users, st`subscriptions, st`tenantModules
    ensures st.Valid()
    ensures !(Filled(tenantName) && Filled(tenantType) && Filled(email) && Filled(password)) ==>
              r == Reply(400, Some("All fields are required"))
    ensures Filled(tenantName) && Filled(tenantType) && Filled(email) && Filled(password) &&
            EmailTaken(old(st.users), email.value) ==>
              r == Reply(409, Some("Email already registered"))
    ensures tenantId.None? ==>
              st.tenants == old(st.tenants) && st.roles == old(st.roles) && st.users == old(st.users) &&
              st.subscriptions == old(st.subscriptions) && st.tenantModules == old(st.tenantModules)
    ensures tenantId.Some? <==>
              Filled(tenantName) && Filled(tenantType) && Filled(email) && Filled(password) &&
              !EmailTaken(old(st.users), email.value)
    ensures tenantId.Some? ==>
              var t := tenantId.value;
              t !in old(st.tenants) &&
              st.tenants == old(st.tenants)[t := Tenant(tenantName.value, tenantType.value, true, now)] &&
              (exists role, user :: role !in old(st.roles) && user !in old(st.users) &&
                 st.roles == old(st.roles)[role := Role("Admin", Some(t))] &&
                 st.users == old(st.users)[user := User(email.value, hash(password.value), Some(t), Some(role), true, 0, None)])
    ensures tenantId.Some? && !TrialConfigured(st.plans) ==>
              r == Reply(500, Some("Registration failed")) &&
              st.subscriptions == old(st.subscriptions) && st.tenantModules == old(st.tenantModules)
    ensures tenantId.Some? && TrialConfigured(st.plans) ==>
              r == Reply(201, Some("Tenant registered successfully")) &&
              exists p :: IsTrial(st.plans, p) &&
                st.subscriptions == old(st.subscriptions) +
                  [Subscription(tenantId.value, p, Active, now, now + st.plans[p].duration * DAY)] &&
                st.tenantModules == old(st.tenantModules) + PlanRows(tenantId.value, PlanModuleIds(st.planModules, p))
  {
    if !(Filled(tenantName) && Filled(tenantType) && Filled(email) && Filled(password)) {
      return Reply(400, Some("All fields are required")), None;
    }
    if EmailTaken(st.users, email.value) {
      return Reply(409, Some("Email already registered")), None;
    }
    var t, role, user := CreateOwners(st, Tenant(tenantName.value, tenantType.value, true, now), email.value, hash(password.value));
    tenantId := Some(t);
    var trial := FindTrialPlan(st.plans);
    if trial.None? {
      return Reply(500, Some("Registration failed")), tenantId;
    }
    var p := trial.value;
    AddSubscription(st, Subscription(t, p, Active, now, now + st.plans[p].duration * DAY));
    AddPlanRows(st, t, p);
    r := Reply(201, Some("Tenant registered successfully"));
  }
}
