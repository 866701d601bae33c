/**
 * The account lockout rule both login handlers follow: five consecutive
 * wrong passwords lock an account for fifteen minutes; a locked account is
 * refused before its password is looked at; a correct password clears the
 * counter and the lock. The counter is not cleared when a lock expires.
 */
module Lockout {
  import opened Base

  const MaxFailedAttempts: int := 5
  const LockTimeMinutes: int := 15

  /** The lock fields of a user or super-admin row. */
  datatype LockState = LockState(failedLoginCount: int, lockedUntil: Option<int>)

  /** `lockedUntil && lockedUntil > now`. */
  predicate IsLocked(s: LockState, now: int) {
    s.lockedUntil.Some? && s.lockedUntil.value > now
  }

  /** The update after a wrong password: one more failure, and a fresh lock from the fifth on. */
  function AfterFailure(s: LockState, now: int): (r: LockState)
    ensures r.failedLoginCount == s.failedLoginCount + 1
    ensures r.failedLoginCount >= MaxFailedAttempts ==> r.lockedUntil == Some(now + LockTimeMinutes * MINUTE)
    ensures r.failedLoginCount < MaxFailedAttempts ==> r.lockedUntil == s.lockedUntil
  {
    var count := s.failedLoginCount + 1;
    if count >= MaxFailedAttempts then LockState(count, Some(now + LockTimeMinutes * MINUTE))
    else LockState(count, s.lockedUntil)
  }

  /** The update after a correct password. */
  const Cleared: LockState := LockState(0, None)

  /** The effect of one login attempt at `now` on the lock fields; `passwordOk` is the hash comparison. */
  function Attempt(s: LockState, now: int, passwordOk: bool): (r: LockState)
    ensures IsLocked(s, now) ==> r == s
    ensures !IsLocked(s, now) && passwordOk ==> r == Cleared
    ensures !IsLocked(s, now) && !passwordOk ==> r == AfterFailure(s, now)
  {
    if IsLocked(s, now) then s else if passwordOk then Cleared else AfterFailure(s, now)
  }

  /** Wrong passwords at the times `ts`, one after the other. */
  function Failures(s: LockState, ts: seq<int>): LockState
    decreases |ts|
  {
    if ts == [] then s else Failures(Attempt(s, ts[0], false), ts[1..])
  }

  /**
   * From a cleared account, four wrong passwords leave it unlocked with a
   * count of four, and a fifth at any time locks it for fifteen minutes
   * from that attempt.
   */
  lemma FifthFailureLocks(ts: seq<int>)
    requires |ts| == 5
    ensures Failures(Cleared, ts[..4]) == LockState(4, None)
    ensures Failures(Cleared, ts) == LockState(5, Some(ts[4] + LockTimeMinutes * MINUTE))
    ensures IsLocked(Failures(Cleared, ts), ts[4])
  {
    CountUpWhileUnlocked(0, ts[..4]);
    FailuresSplit(Cleared, ts[..4], [ts[4]]);
    assert ts[..4] + [ts[4]] == ts;
  }

  /** Below the threshold and never locked, each wrong password adds one and sets no lock. */
  lemma {:induction false} CountUpWhileUnlocked(n: int, ts: seq<int>)
    requires 0 <= n && n + |ts| < MaxFailedAttempts
    ensures Failures(LockState(n, None), ts) == LockState(n + |ts|, None)
    decreases |ts|
  {
    if ts != [] {
      CountUpWhileUnlocked(n + 1, ts[1..]);
    }
  }

  lemma {:induction false} FailuresSplit(s: LockState, a: seq<int>, b: seq<int>)
    ensures Failures(s, a + b) == Failures(Failures(s, a), b)
    decreases |a|
  {
    if a == [] {
      assert a + b == b;
    } else {
      assert (a + b)[1..] == a[1..] + b;
      FailuresSplit(Attempt(s, a[0], false), a[1..], b);
    }
  }

  /** While a lock holds, attempts change nothing, whatever the password. */
  lemma LockedAttemptChangesNothing(s: LockState, now: int, passwordOk: bool)
    requires IsLocked(s, now)
    ensures Attempt(s, now, passwordOk) == s
  {
  }

  /**
   * Because the counter survives the end of a lock, the first wrong
   * password after a lock expires locks the account again at once.
   */
  lemma RelockAfterExpiry(s: LockState, now: int)
    requires s.failedLoginCount >= MaxFailedAttempts - 1 && !IsLocked(s, now)
    ensures IsLocked(Attempt(s, now, false), now)
  {
  }

  /** A correct password on an unlocked account clears both fields, so the next lock needs five failures again. */
  lemma SuccessClears(s: LockState, now: int)
    requires !IsLocked(s, now)
    ensures Attempt(s, now, true) == Cleared
    ensures !IsLocked(Attempt(s, now, true), now)
  {
  }
}
