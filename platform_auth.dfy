/**
 * Super-admin login with the same lockout rule as the tenant login, and a
 * `lastLogin` stamp on success. Password comparison and token signing are
 * oracles.
 */
module PlatformAuth {
  import opened Base
  import opened Schema
  import opened Db
  import opened Lockout

  const ActorType: string := "SUPER_ADMIN"

  function AdminLock(a: SuperAdmin): LockState {
    LockState(a.failedLoginCount, a.lockedUntil)
  }

  /** The row after an update of its lock fields. */
  function WithAdminLock(a: SuperAdmin, s: LockState): (v: SuperAdmin)
    ensures v.email == a.email && v.password == a.password && v.name == a.name
    ensures v.isActive == a.isActive && v.lastLogin == a.lastLogin
    ensures AdminLock(v) == s
  {
    a.(failedLoginCount := s.failedLoginCount, lockedUntil := s.lockedUntil)
  }

  /** `superAdmin.findUnique({ where: { email } })` for a string e-mail: the row holding it, if any. */
  method FindAdmin(st: Store, email: string) returns (a: Option<Id>)
    requires st.SuperAdminEmailsUnique()
    ensures a.Some? ==> a.value in st.superAdmins && st.superAdmins[a.value].email == email
    ensures a.Some? ==> forall x :: x in st.superAdmins && st.superAdmins[x].email == email ==> x == a.value
    ensures a.None? ==> forall x :: x in st.superAdmins ==> st.superAdmins[x].email != email
  {
    if exists x :: x in st.superAdmins && st.superAdmins[x].email == email {
      var x :| x in st.superAdmins && st.superAdmins[x].email == email;
      a := Some(x);
    } else {
      a := None;
    }
  }

  /** The payload handed to the token signer. */
  function AdminClaims(a: Id): (c: Claims)
    ensures Field(c, "role") == Some(JStr("SUPER_ADMIN"))
    ensures Field(c, "superAdminId") == Some(JStr(a))
    ensures c.Keys == {"superAdminId", "role"}
  {
    map["superAdminId" := JStr(a), "role" := JStr("SUPER_ADMIN")]
  }

  function AdminAttempt(a: Option<Id>, email: Option<Json>, success: bool, reason: string): LoginAttempt {
    LoginAttempt(ActorType, a, None, email, success, reason)
  }

  method RecordAdminAttempt(st: Store, a: LoginAttempt)
    requires st.Valid()
    modifies st`loginAttempts
    ensures st.Valid()
    ensures st.loginAttempts == old(st.loginAttempts) + [a]
  {
    st.loginAttempts := st.loginAttempts + [a];
  }

  method UpdateAdmin(st: Store, a: Id, v: SuperAdmin)
    requires st.Valid() && a in st.superAdmins && v.email == st.superAdmins[a].email
    modifies st`superAdmins
    ensures st.Valid()
    ensures st.superAdmins == old(st.superAdmins)[a := v]
  {
    st.superAdmins := st.superAdmins[a := v];
  }

  const WelcomeMessage: string := "Welcome to the Platform Admin Panel \U{1F680}"

  /**
   * `findUnique` needs a string e-mail and fails otherwise. A missing or
   * inactive admin gives 401, a lock in force 423 before the password is
   * checked, a wrong password 401 after the lockout update, and a correct
   * one resets the lock fields, stamps `lastLogin` and signs a token.
   */
  method SuperAdminLogin(st: Store, email: Option<Json>, password: Option<Json>, now: int,
                         compare: (string, string) -> bool, sign: Claims -> string)
    returns (r: Reply, token: Option<string>)
    requires st.Valid()
    modifies st`superAdmins, st`loginAttempts
    ensures st.Valid()
    ensures token.Some? ==> r.status == 200
    ensures !(email.Some? && email.value.JStr?) ==>
              r == Reply(500, Some("Login failed")) && token.None? &&
              st.superAdmins == old(st.superAdmins) && st.loginAttempts == old(st.loginAttempts)
    ensures email.Some? && email.value.JStr? && (forall x :: x in old(st.superAdmins) ==> old(st.superAdmins)[x].email != email.value.s) ==>
              r == Reply(401, Some("Invalid credentials")) && token.None? && st.superAdmins == old(st.superAdmins) &&
              st.loginAttempts == old(st.loginAttempts) + [AdminAttempt(None, email, false, "INVALID_EMAIL")]
    ensures forall a :: a in old(st.superAdmins) && email == Some(JStr(old(st.superAdmins)[a].email)) ==>
              var admin := old(st.superAdmins)[a];
              (!admin.isActive ==>
                 r == Reply(401, Some("Invalid credentials")) && token.None? && st.superAdmins == old(st.superAdmins) &&
                 st.loginAttempts == old(st.loginAttempts) + [AdminAttempt(Some(a), email, false, "INVALID_EMAIL")]) &&
              (admin.isActive && IsLocked(AdminLock(admin), now) ==>
                 r == Reply(423, Some("Account is temporarily locked. Try again later.")) && token.None? &&
                 st.superAdmins == old(st.superAdmins) &&
                 st.loginAttempts == old(st.loginAttempts) + [AdminAttempt(Some(a), email, false, "ACCOUNT_LOCKED")]) &&
              (admin.isActive && !IsLocked(AdminLock(admin), now) && !(password.Some? && password.value.JStr?) ==>
                 r == Reply(500, Some("Login failed")) && token.None? &&
                 st.superAdmins == old(st.superAdmins) && st.loginAttempts == old(st.loginAttempts))
    ensures forall a :: a in old(st.superAdmins) && email == Some(JStr(old(st.superAdmins)[a].email)) ==>
              var admin := old(st.superAdmins)[a];
              admin.isActive && !IsLocked(AdminLock(admin), now) && password.Some? && password.value.JStr? ==>
                var ok := compare(password.value.s, admin.password);
                (!ok ==>
                   st.superAdmins == old(st.superAdmins)[a := WithAdminLock(admin, AfterFailure(AdminLock(admin), now))] &&
                   r == Reply(401, Some("Invalid credentials")) && token.None? &&
                   st.loginAttempts == old(st.loginAttempts) + [AdminAttempt(Some(a), email, false, "INVALID_PASSWORD")]) &&
                (ok ==>
                   st.superAdmins == old(st.superAdmins)[a := WithAdminLock(admin, Cleared).(lastLogin := Some(now))] &&
                   r == Reply(200, Some(WelcomeMessage)) && token == Some(sign(AdminClaims(a))) &&
                   st.loginAttempts == old(st.loginAttempts) + [AdminAttempt(Some(a), email, true, "LOGIN_SUCCESS")])
  {
    token := None;
    if !(email.Some? && email.value.JStr?) {
      return Reply(500, Some("Login failed")), None;
    }
    assert st.SuperAdminEmailsUnique();
    var found := FindAdmin(st, email.value.s);
    if found.None? || !st.superAdmins[found.value].isActive {
      RecordAdminAttempt(st, AdminAttempt(found, email, false, "INVALID_EMAIL"));
      return Reply(401, Some("Invalid credentials")), None;
    }
    var a := found.value;
    var admin := st.superAdmins[a];
    if IsLocked(AdminLock(admin), now) {
      RecordAdminAttempt(st, AdminAttempt(found, email, false, "ACCOUNT_LOCKED"));
      return Reply(423, Some("Account is temporarily locked. Try again later.")), None;
    }
    if !(password.Some? && password.value.JStr?) {
      return Reply(500, Some("Login failed")), None;
    }
    if !compare(password.value.s, admin.password) {
      UpdateAdmin(st, a, WithAdminLock(admin, AfterFailure(AdminLock(admin), now)));
      RecordAdminAttempt(st, AdminAttempt(found, email, false, "INVALID_PASSWORD"));
      return Reply(401, Some("Invalid credentials")), None;
    }
    UpdateAdmin(st, a, WithAdminLock(admin, Cleared).(lastLogin := Some(now)));
    RecordAdminAttempt(st, AdminAttempt(found, email, true, "LOGIN_SUCCESS"));
    r, token := Reply(200, Some(WelcomeMessage)), Some(sign(AdminClaims(a)));
  }
}
