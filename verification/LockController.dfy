// The app lock and the per chat code check as objects: the counters they update are those of
// Lockout, and the database key is in memory only while unlocked.
module LockController {
  import opened Lockout
  import opened Options

  datatype LockStatus = Locked | Unlocking | Unlocked

  type DbKey = string

  class AppLock {
    var dbKey: Option<DbKey>
    var status: LockStatus
    var failedAttempts: nat
    var lockoutUntil: int

    function Attempts(): Counters
      reads this`failedAttempts, this`lockoutUntil
    {
      Counters(failedAttempts, lockoutUntil)
    }

    predicate IsUnlocked()
      reads this`dbKey, this`status
    {
      dbKey.Some? && status == Unlocked
    }

    // Hydrated from the persisted counters.
    constructor (saved: Counters)
      ensures Attempts() == saved && dbKey == None && status == Locked
    {
      dbKey, status, failedAttempts, lockoutUntil := None, Locked, saved.failed, saved.until;
    }

    method LockoutRemainingMs(now: int) returns (ms: int)
      ensures ms >= 0 && (ms > 0 <==> lockoutUntil > now)
      ensures ms > 0 ==> now + ms == lockoutUntil
    {
      ms := if lockoutUntil - now > 0 then lockoutUntil - now else 0;
    }

    // Opening the database may itself fail; that counts like a wrong PIN.
    method OpenWithKey(key: DbKey, opens: bool) returns (done: bool)
      modifies this
      ensures done == opens
      ensures opens ==> IsUnlocked() && dbKey == Some(key) && Attempts() == Counters(0, 0)
      ensures !opens ==> dbKey == old(dbKey) && status == old(status) && Attempts() == old(Attempts())
    {
      if !opens {
        return false;
      }
      dbKey := Some(key);
      failedAttempts := 0;
      lockoutUntil := 0;
      status := Unlocked;
      done := true;
    }

    // `key` is what the PIN unwraps, if it is right.
    method UnlockWithPin(key: Option<DbKey>, opens: bool, now: int, later: int) returns (done: bool)
      modifies this
      ensures Attempts() == PinAttempt(old(Attempts()), Attempt(now, later, key.Some? && opens))
      ensures done <==> !Refused(old(Attempts()), Attempt(now, later, true)) && key.Some? && opens
      ensures done ==> IsUnlocked() && dbKey == key
      ensures !done ==> dbKey == old(dbKey)
      ensures !done ==> status == if Refused(old(Attempts()), Attempt(now, later, true)) then old(status) else Locked
    {
      var remaining := LockoutRemainingMs(now);
      if remaining > 0 {
        return false;
      }
      status := Unlocking;
      if key.Some? {
        done := OpenWithKey(key.value, opens);
        if done {
          return;
        }
      }
      failedAttempts := failedAttempts + 1;
      if failedAttempts >= MAX_ATTEMPTS {
        lockoutUntil := later + LOCKOUT_MS;
        failedAttempts := 0;
      }
      status := Locked;
      done := false;
    }

    // Refused during a lockout like the PIN; a failure is not counted.
    method UnlockWithBiometrics(key: Option<DbKey>, opens: bool, now: int) returns (done: bool)
      modifies this
      ensures done <==> old(lockoutUntil) <= now && key.Some? && opens
      ensures Attempts() == if done then Counters(0, 0) else old(Attempts())
      ensures done ==> IsUnlocked() && dbKey == key
      ensures !done ==> dbKey == old(dbKey)
    {
      var remaining := LockoutRemainingMs(now);
      if remaining > 0 {
        return false;
      }
      status := Unlocking;
      if key.None? {
        status := Locked;
        return false;
      }
      done := OpenWithKey(key.value, opens);
      if !done {
        status := Locked;
      }
    }

    method Lock()
      modifies this
      ensures dbKey == None && status == Locked && Attempts() == old(Attempts())
    {
      dbKey := None;
      status := Locked;
    }
  }

  class ChatCodeLock {
    var lockFailedAttempts: nat
    var lockLockoutUntil: int
    var wrapped: bool
    var released: bool

    function Attempts(): Counters
      reads this`lockFailedAttempts, this`lockLockoutUntil
    {
      Counters(lockFailedAttempts, lockLockoutUntil)
    }

    constructor (saved: Counters, wrapped: bool)
      ensures Attempts() == saved && this.wrapped == wrapped && !released
    {
      lockFailedAttempts, lockLockoutUntil, this.wrapped, released := saved.failed, saved.until, wrapped, false;
    }

    // Without a stored code item nothing is compared and nothing is counted.
    method UnlockChatWithCode(codeOk: bool, now: int, later: int) returns (done: bool)
      modifies this
      ensures Attempts() == if wrapped then ChatAttempt(old(Attempts()), Attempt(now, later, codeOk))
          else old(Attempts())
      ensures done <==> wrapped && !Refused(old(Attempts()), Attempt(now, later, codeOk)) && codeOk
      ensures released == (old(released) || done) && wrapped == old(wrapped)
    {
      if lockLockoutUntil > now || !wrapped {
        return false;
      }
      if codeOk {
        released := true;
        lockFailedAttempts, lockLockoutUntil := 0, 0;
        return true;
      }
      var attempts := lockFailedAttempts + 1;
      if attempts >= MAX_ATTEMPTS {
        lockFailedAttempts, lockLockoutUntil := 0, later + LOCKOUT_MS;
      } else {
        lockFailedAttempts, lockLockoutUntil := attempts, 0;
      }
      done := false;
    }
  }
}
