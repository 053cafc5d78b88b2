/**
 * The login rate limiter: a per-identifier record of failed logins that locks the
 * identifier after five failures inside a fifteen-minute window, for fifteen minutes.
 *
 * Time is an explicit `now`, in nanoseconds like Go's time.Duration; a zero
 * `lockedAt` (time.Time{}) is `None`.
 */
module RateLimiting {
  import opened Wrappers

  const MaxLoginAttempts := 5
  const Minute := 60 * 1_000_000_000
  const LockoutDuration := 15 * Minute
  const AttemptWindowReset := 15 * Minute

  datatype LoginAttempt = LoginAttempt(count: int, firstFail: int, lockedAt: Option<int>)

  /** What the limiter knows about one identifier after a failed attempt. */
  datatype Step = Step(next: LoginAttempt, locked: bool)

  // ---------------------------------------------------------------------------
  // The per-identifier state machine (a missing record is `None`)
  // ---------------------------------------------------------------------------

  /** Time left on the lock, floored at zero; zero when no lock was ever set. */
  function LockoutRemaining(a: Option<LoginAttempt>, now: int): (r: int)
    ensures 0 <= r
    ensures a.None? || a.value.lockedAt.None? ==> r == 0
    ensures a.Some? && a.value.lockedAt.Some? && a.value.lockedAt.value <= now ==> r <= LockoutDuration
    ensures a.Some? && a.value.lockedAt == Some(now) ==> r == LockoutDuration
  {
    if a.None? then 0
    else if a.value.lockedAt.None? then 0
    else
      var remaining := LockoutDuration - (now - a.value.lockedAt.value);
      if remaining < 0 then 0 else remaining
  }

  /** A lock is running (strictly less than the lockout has elapsed since it was set). */
  predicate Locked(a: Option<LoginAttempt>, now: int)
    ensures Locked(a, now) <==> LockoutRemaining(a, now) > 0
  {
    a.Some? && a.value.lockedAt.Some? && now - a.value.lockedAt.value < LockoutDuration
  }

  /** The window opened by the first failure has (strictly) run out. */
  predicate WindowExpired(a: LoginAttempt, now: int) {
    now - a.firstFail > AttemptWindowReset
  }

  /** Attempts left before a lock: the full allowance once the window has run out. */
  function RemainingAttempts(a: Option<LoginAttempt>, now: int): (r: int)
    ensures 0 <= r
    ensures a.None? ==> r == MaxLoginAttempts
    ensures a.Some? && a.value.count >= 0 ==> r <= MaxLoginAttempts
    ensures r == 0 <==> a.Some? && !WindowExpired(a.value, now) && a.value.count >= MaxLoginAttempts
  {
    if a.None? then MaxLoginAttempts
    else if WindowExpired(a.value, now) then MaxLoginAttempts
    else
      var remaining := MaxLoginAttempts - a.value.count;
      if remaining < 0 then 0 else remaining
  }

  /** One failed login at `now`. */
  function Fail(a: Option<LoginAttempt>, now: int): (s: Step)
    ensures s.next.count >= 1 || (a.Some? && a.value.count < 0)
    ensures s.locked ==> Locked(Some(s.next), now) && LockoutRemaining(Some(s.next), now) == LockoutDuration
    ensures s.locked ==> RemainingAttempts(Some(s.next), now) == 0
    ensures !s.locked ==> s.next.lockedAt == (if a.None? || WindowExpired(a.value, now) then None else a.value.lockedAt)
    ensures a.Some? && !WindowExpired(a.value, now) ==>
              && s.next.count == a.value.count + 1
              && s.next.firstFail == a.value.firstFail
              && (s.locked <==> a.value.count + 1 >= MaxLoginAttempts)
    ensures a.None? || WindowExpired(a.value, now) ==> s == Step(LoginAttempt(1, now, None), false)
  {
    if a.None? then
      Step(LoginAttempt(1, now, None), false)
    else if WindowExpired(a.value, now) then
      Step(LoginAttempt(1, now, None), false)
    else
      var count := a.value.count + 1;
      if count >= MaxLoginAttempts then
        Step(a.value.(count := count, lockedAt := Some(now)), true)
      else
        Step(a.value.(count := count), false)
  }

  /** The sweep frees a record whose lock has expired, or which is unlocked with an expired window. */
  predicate Reclaimable(a: LoginAttempt, now: int) {
    || (a.lockedAt.Some? && now - a.lockedAt.value > LockoutDuration)
    || (a.lockedAt.None? && now - a.firstFail > AttemptWindowReset)
  }

  /** The attempts table after one pass of the sweep. */
  function Swept(m: map<string, LoginAttempt>, now: int): (r: map<string, LoginAttempt>)
    ensures forall k :: k in r <==> k in m && !Reclaimable(m[k], now)
    ensures forall k :: k in r ==> r[k] == m[k]
  {
    map k | k in m && !Reclaimable(m[k], now) :: m[k]
  }

  /** A lock is never set before the window it belongs to opened. */
  predicate Ordered(a: LoginAttempt) {
    a.lockedAt.Some? ==> a.firstFail <= a.lockedAt.value
  }

  // ---------------------------------------------------------------------------
  // Properties of the state machine
  // ---------------------------------------------------------------------------

  /** An identifier with no record is not locked, has every attempt left and no lockout time. */
  lemma UnknownIdentifier(now: int)
    ensures !Locked(None, now)
    ensures RemainingAttempts(None, now) == MaxLoginAttempts
    ensures LockoutRemaining(None, now) == 0
  {
  }

  /** Inside the window every failure from the fifth on counts, restarts the lock and reports it. */
  lemma FailureAtOrPastLimitRelocks(a: LoginAttempt, now: int)
    requires !WindowExpired(a, now) && a.count + 1 >= MaxLoginAttempts
    ensures Fail(Some(a), now) == Step(a.(count := a.count + 1, lockedAt := Some(now)), true)
  {
  }

  /** A failure after the window has run out starts a fresh window and clears any lock. */
  lemma FailureAfterWindowResets(a: LoginAttempt, now: int)
    requires WindowExpired(a, now)
    ensures Fail(Some(a), now) == Step(LoginAttempt(1, now, None), false)
    ensures !Locked(Some(Fail(Some(a), now).next), now)
    ensures RemainingAttempts(Some(Fail(Some(a), now).next), now) == MaxLoginAttempts - 1
  {
  }

  /**
   * The window reset clears a lock that is still running: locked 14 minutes into the
   * window and failing again 16 minutes in leaves the identifier unlocked after only
   * two minutes of lockout.
   */
  lemma WindowResetCutsLockShort()
    ensures exists a: LoginAttempt, now: int ::
      Locked(Some(a), now) && !Fail(Some(a), now).locked && !Locked(Some(Fail(Some(a), now).next), now)
  {
    var a := LoginAttempt(MaxLoginAttempts, 0, Some(14 * Minute));
    var now := 16 * Minute;
    assert Locked(Some(a), now);
    assert !Locked(Some(Fail(Some(a), now).next), now);
  }

  /**
   * Locked and yet reporting the full allowance: once the window has run out,
   * GetRemainingAttempts no longer looks at a lock that is still running.
   */
  lemma LockedWithFullAllowance()
    ensures exists a: LoginAttempt, now: int ::
      Locked(Some(a), now) && RemainingAttempts(Some(a), now) == MaxLoginAttempts
  {
    var a := LoginAttempt(MaxLoginAttempts, 0, Some(14 * Minute));
    assert Locked(Some(a), 16 * Minute) && RemainingAttempts(Some(a), 16 * Minute) == MaxLoginAttempts;
  }

  /** A failure keeps a lock from being older than its window, given a clock that does not run back. */
  lemma FailKeepsOrdered(a: Option<LoginAttempt>, now: int)
    requires a.Some? ==> Ordered(a.value) && a.value.firstFail <= now
    ensures Ordered(Fail(a, now).next)
  {
  }

  /**
   * The sweep is invisible: with lock and window of equal length and every lock set
   * after its window opened, no query answers differently after it.
   */
  lemma SweepUnobservable(m: map<string, LoginAttempt>, now: int, id: string)
    requires forall k :: k in m ==> Ordered(m[k])
    ensures Locked(Lookup(Swept(m, now), id), now) == Locked(Lookup(m, id), now)
    ensures RemainingAttempts(Lookup(Swept(m, now), id), now) == RemainingAttempts(Lookup(m, id), now)
    ensures LockoutRemaining(Lookup(Swept(m, now), id), now) == LockoutRemaining(Lookup(m, id), now)
  {
    if id in m && Reclaimable(m[id], now) {
      assert Ordered(m[id]);
    }
  }

  // ---------------------------------------------------------------------------
  // A run of failures from a clean state
  // ---------------------------------------------------------------------------

  /** The record left by failing at each of `times` in turn, starting from no record. */
  function Replay(times: seq<int>): (r: Option<LoginAttempt>)
    ensures r.None? <==> times == []
  {
    if times == [] then None
    else Some(Fail(Replay(times[..|times| - 1]), times[|times| - 1]).next)
  }

  /** What the last failure of the run returned. */
  function LastReport(times: seq<int>): bool
    requires times != []
  {
    Fail(Replay(times[..|times| - 1]), times[|times| - 1]).locked
  }

  /** Every failure of the run lies inside the window opened by the first one. */
  predicate WithinFirstWindow(times: seq<int>) {
    forall i :: 0 <= i < |times| ==> times[i] - times[0] <= AttemptWindowReset
  }

  /**
   * k failures inside one window leave count k, the window opened by the first, and a
   * lock set by the last one exactly when k reaches the limit.
   */
  lemma {:induction false} ReplayWithinWindow(times: seq<int>)
    requires times != [] && WithinFirstWindow(times)
    ensures Replay(times) == Some(LoginAttempt(|times|, times[0],
              if |times| >= MaxLoginAttempts then Some(times[|times| - 1]) else None))
    ensures LastReport(times) <==> |times| >= MaxLoginAttempts
  {
    var n := |times|;
    if n > 1 {
      var prefix := times[..n - 1];
      assert prefix[0] == times[0];
      assert WithinFirstWindow(prefix) by {
        forall i | 0 <= i < |prefix| ensures prefix[i] - prefix[0] <= AttemptWindowReset {
          assert prefix[i] == times[i];
        }
      }
      ReplayWithinWindow(prefix);
      assert times[n - 1] - times[0] <= AttemptWindowReset;
    }
  }

  /** Four failures in the window: not locked, one attempt left, and each call reported no lock. */
  lemma FourFailuresLeaveOneAttempt(times: seq<int>)
    requires |times| == MaxLoginAttempts - 1 && WithinFirstWindow(times)
    ensures forall k :: 1 <= k <= |times| ==> !LastReport(times[..k])
    ensures !Locked(Replay(times), times[|times| - 1])
    ensures RemainingAttempts(Replay(times), times[|times| - 1]) == 1
  {
    forall k | 1 <= k <= |times| ensures !LastReport(times[..k]) {
      PrefixWithinWindow(times, k);
      ReplayWithinWindow(times[..k]);
    }
    ReplayWithinWindow(times);
  }

  /** The fifth failure in the window reports the lock; the identifier is then locked with no attempts left. */
  lemma FifthFailureLocks(times: seq<int>)
    requires |times| == MaxLoginAttempts && WithinFirstWindow(times)
    ensures LastReport(times)
    ensures Locked(Replay(times), times[|times| - 1])
    ensures RemainingAttempts(Replay(times), times[|times| - 1]) == 0
    ensures LockoutRemaining(Replay(times), times[|times| - 1]) == LockoutDuration
  {
    ReplayWithinWindow(times);
  }

  lemma PrefixWithinWindow(times: seq<int>, k: int)
    requires WithinFirstWindow(times) && 1 <= k <= |times|
    ensures times[..k] != [] && WithinFirstWindow(times[..k])
  {
    assert times[..k][0] == times[0];
  }

  // ---------------------------------------------------------------------------
  // The limiter object
  // ---------------------------------------------------------------------------

  class RateLimiter {
    var attempts: map<string, LoginAttempt>

    constructor ()
      ensures attempts == map[]
    {
      attempts := map[];
    }

    method IsLocked(identifier: string, now: int) returns (locked: bool)
      ensures locked == Locked(Lookup(attempts, identifier), now)
      ensures locked ==> identifier in attempts
    {
      if identifier !in attempts {
        return false;
      }
      var attempt := attempts[identifier];
      if attempt.lockedAt.Some? {
        if now - attempt.lockedAt.value < LockoutDuration {
          return true;
        }
      }
      return false;
    }

    method GetLockoutRemaining(identifier: string, now: int) returns (remaining: int)
      ensures remaining == LockoutRemaining(Lookup(attempts, identifier), now)
      ensures remaining > 0 <==> Locked(Lookup(attempts, identifier), now)
    {
      if identifier !in attempts {
        return 0;
      }
      var attempt := attempts[identifier];
      if attempt.lockedAt.None? {
        return 0;
      }
      remaining := LockoutDuration - (now - attempt.lockedAt.value);
      if remaining < 0 {
        return 0;
      }
    }

    method RecordFailedAttempt(identifier: string, now: int) returns (locked: bool)
      modifies this
      ensures locked == Fail(Lookup(old(attempts), identifier), now).locked
      ensures attempts == old(attempts)[identifier := Fail(Lookup(old(attempts), identifier), now).next]
    {
      if identifier !in attempts {
        attempts := attempts[identifier := LoginAttempt(1, now, None)];
        return false;
      }
      var attempt := attempts[identifier];
      if now - attempt.firstFail > AttemptWindowReset {
        attempts := attempts[identifier := LoginAttempt(1, now, None)];
        return false;
      }
      attempt := attempt.(count := attempt.count + 1);
      if attempt.count >= MaxLoginAttempts {
        attempts := attempts[identifier := attempt.(lockedAt := Some(now))];
        return true;
      }
      attempts := attempts[identifier := attempt];
      return false;
    }

    method ResetAttempts(identifier: string)
      modifies this
      ensures attempts == old(attempts) - {identifier}
      ensures forall now :: RemainingAttempts(Lookup(attempts, identifier), now) == MaxLoginAttempts
    {
      attempts := attempts - {identifier};
    }

    method GetRemainingAttempts(identifier: string, now: int) returns (remaining: int)
      ensures remaining == RemainingAttempts(Lookup(attempts, identifier), now)
    {
      if identifier !in attempts {
        return MaxLoginAttempts;
      }
      var attempt := attempts[identifier];
      if now - attempt.firstFail > AttemptWindowReset {
        return MaxLoginAttempts;
      }
      remaining := MaxLoginAttempts - attempt.count;
      if remaining < 0 {
        return 0;
      }
    }

    /** One pass of the background sweep, at `now`. */
    method Sweep(now: int)
      modifies this
      ensures attempts == Swept(old(attempts), now)
    {
      var pending := attempts.Keys;
      while pending != {}
        invariant pending <= old(attempts).Keys
        invariant attempts.Keys == set k | k in old(attempts) && (k in pending || !Reclaimable(old(attempts)[k], now))
        invariant forall k :: k in attempts ==> attempts[k] == old(attempts)[k]
        decreases pending
      {
        var key :| key in pending;
        var attempt := attempts[key];
        if attempt.lockedAt.Some? && now - attempt.lockedAt.value > LockoutDuration {
          attempts := attempts - {key};
        } else if attempt.lockedAt.None? && now - attempt.firstFail > AttemptWindowReset {
          attempts := attempts - {key};
        }
        pending := pending - {key};
      }
    }
  }
}
