// The attempt counters behind the app PIN and the per chat code, and how many wrong codes
// they let through.
module Lockout {
  const MAX_ATTEMPTS: nat := 5
  const LOCKOUT_MS: int := 300_000

  datatype Counters = Counters(failed: nat, until: int)

  // One attempt: when the lockout is checked, when the outcome is known, and the outcome.
  datatype Attempt = Attempt(at: int, done: int, ok: bool)

  predicate Refused(c: Counters, a: Attempt) {
    c.until > a.at
  }

  // unlockWithPin: a lockout is set at the fifth failure, otherwise left as it is.
  function PinAttempt(c: Counters, a: Attempt): Counters {
    if Refused(c, a) then c
    else if a.ok then Counters(0, 0)
    else if c.failed + 1 >= MAX_ATTEMPTS then Counters(0, a.done + LOCKOUT_MS)
    else c.(failed := c.failed + 1)
  }

  // unlockChatWithCode: a failure below the fifth stores a cleared lockout.
  function ChatAttempt(c: Counters, a: Attempt): Counters {
    if Refused(c, a) then c
    else if a.ok then Counters(0, 0)
    else if c.failed + 1 >= MAX_ATTEMPTS then Counters(0, a.done + LOCKOUT_MS)
    else Counters(c.failed + 1, 0)
  }

  // The two counters, apart.
  datatype Gate = Pin | ChatCode

  function Try(g: Gate, c: Counters, a: Attempt): Counters {
    match g
    case Pin => PinAttempt(c, a)
    case ChatCode => ChatAttempt(c, a)
  }

  // Codes that were actually compared, in a sequence of attempts.
  function Evaluated(g: Gate, c: Counters, attempts: seq<Attempt>): nat
    decreases |attempts|
  {
    if attempts == [] then 0
    else (if Refused(c, attempts[0]) then 0 else 1) + Evaluated(g, Try(g, c, attempts[0]), attempts[1..])
  }

  // One attempt after another on a clock that does not go back, all checked no later than
  // `end`, none successful.
  predicate FailedSpan(attempts: seq<Attempt>, start: int, end: int) {
    && (forall i :: 0 <= i < |attempts| ==>
          start <= attempts[i].at <= attempts[i].done && attempts[i].at <= end && !attempts[i].ok)
    && forall i :: 0 <= i < |attempts| - 1 ==> attempts[i].done <= attempts[i + 1].at
  }

  // At most five codes for each started lockout period of the span, less those already
  // counted when it began. `base` is a time before which no lockout period has started.
  lemma {:induction false} GuessBoundFrom(g: Gate, c: Counters, attempts: seq<Attempt>, start: int, base: int, end: int)
    requires c.failed < MAX_ATTEMPTS && base <= start && FailedSpan(attempts, start, end)
    ensures attempts == [] || end < base ==> Evaluated(g, c, attempts) == 0
    ensures end >= base ==> Evaluated(g, c, attempts) <= MAX_ATTEMPTS * ((end - base) / LOCKOUT_MS + 1) - c.failed
    decreases |attempts|, 0
  {
    if attempts == [] {
      Positive(end - base);
    } else {
      var a, rest := attempts[0], attempts[1..];
      var c1 := Try(g, c, a);
      SpanTail(attempts, start, end);
      if !Refused(c, a) && c.failed + 1 == MAX_ATTEMPTS {
        AfterLockout(g, c1, rest, a.done, base, end);
      } else {
        GuessBoundFrom(g, c1, rest, start, base, end);
      }
    }
  }

  // After a lockout was set nothing is compared for a whole period.
  lemma {:induction false} AfterLockout(g: Gate, c: Counters, attempts: seq<Attempt>, start: int, base: int, end: int)
    requires c == Counters(0, start + LOCKOUT_MS) && base <= start && FailedSpan(attempts, start, end) && base <= end
    ensures Evaluated(g, c, attempts) <= MAX_ATTEMPTS * ((end - base) / LOCKOUT_MS)
    decreases |attempts|, 1
  {
    Positive(end - base);
    if attempts != [] {
      if Refused(c, attempts[0]) {
        SpanTail(attempts, start, end);
        AfterLockout(g, c, attempts[1..], start, base, end);
      } else {
        assert FailedSpan(attempts, attempts[0].at, end) by { Sorted(attempts, start, end); }
        GuessBoundFrom(g, c, attempts, attempts[0].at, base + LOCKOUT_MS, end);
        OnePeriodLess(end - base);
      }
    }
  }

  lemma {:induction false} Sorted(attempts: seq<Attempt>, start: int, end: int)
    requires FailedSpan(attempts, start, end) && attempts != []
    ensures forall i :: 0 <= i < |attempts| ==> attempts[0].at <= attempts[i].at
    ensures forall i :: 1 <= i < |attempts| ==> attempts[0].done <= attempts[i].at
    decreases |attempts|
  {
    if |attempts| > 1 {
      Sorted(attempts[1..], start, end);
      forall i | 1 <= i < |attempts| ensures attempts[0].at <= attempts[i].at && attempts[0].done <= attempts[i].at {
        assert attempts[i] == attempts[1..][i - 1];
      }
    }
  }

  lemma SpanTail(attempts: seq<Attempt>, start: int, end: int)
    requires FailedSpan(attempts, start, end) && attempts != []
    ensures FailedSpan(attempts[1..], attempts[0].done, end) && FailedSpan(attempts[1..], start, end)
  {
    Sorted(attempts, start, end);
    var rest := attempts[1..];
    forall i | 0 <= i < |rest| - 1 ensures rest[i].done <= rest[i + 1].at { assert rest[i] == attempts[i + 1]; }
  }

  lemma Positive(w: int)
    ensures w >= 0 ==> w / LOCKOUT_MS >= 0
  {
  }

  lemma OnePeriodLess(w: int)
    requires w >= LOCKOUT_MS
    ensures (w - LOCKOUT_MS) / LOCKOUT_MS == w / LOCKOUT_MS - 1
  {
  }

  // In any span of `width` ms between successes, at most 5 * (floor(width / 300000) + 1)
  // wrong codes are compared, for the app PIN and for a chat code.
  lemma GuessBound(g: Gate, c: Counters, attempts: seq<Attempt>, start: int, width: int)
    requires c.failed < MAX_ATTEMPTS && width >= 0 && FailedSpan(attempts, start, start + width)
    ensures Evaluated(g, c, attempts) <= 5 * (width / 300_000 + 1)
  {
    GuessBoundFrom(g, c, attempts, start, start, start + width);
  }

  // No attempt ever leaves five failures standing: the fifth is traded for five minutes. Any
  // other failure is counted and locks nobody out; a chat code then forgets the last lockout.
  lemma CountersStayBelow(g: Gate, c: Counters, a: Attempt)
    requires c.failed < 5
    ensures Try(g, c, a).failed < 5
    ensures a.ok && !Refused(c, a) ==> Try(g, c, a) == Counters(0, 0)
    ensures Refused(c, a) ==> Try(g, c, a) == c
    ensures !a.ok && !Refused(c, a) && c.failed == 4 ==> Try(g, c, a) == Counters(0, a.done + 300_000)
    ensures !a.ok && !Refused(c, a) && c.failed < 4 ==>
              Try(g, c, a) == Counters(c.failed + 1, if g.ChatCode? then 0 else c.until) && c.until <= a.at
  {
  }

  // The bound is reached: five wrong codes at once, again whenever a lockout has run out.
  function Burst(start: int): seq<Attempt> {
    [Attempt(start, start, false), Attempt(start, start, false), Attempt(start, start, false),
     Attempt(start, start, false), Attempt(start, start, false)]
  }

  function Bursts(start: int, k: nat): seq<Attempt>
    decreases k
  {
    if k == 0 then Burst(start) else Burst(start) + Bursts(start + LOCKOUT_MS, k - 1)
  }

  lemma OneMore(g: Gate, c: Counters, a: Attempt, rest: seq<Attempt>)
    ensures Evaluated(g, c, [a] + rest) == (if Refused(c, a) then 0 else 1) + Evaluated(g, Try(g, c, a), rest)
  {
    assert ([a] + rest)[1..] == rest;
  }

  lemma BurstCounts(g: Gate, c: Counters, start: int, rest: seq<Attempt>)
    requires c.failed == 0 && c.until <= start && start >= 0
    ensures Evaluated(g, c, Burst(start) + rest) == 5 + Evaluated(g, Counters(0, start + LOCKOUT_MS), rest)
  {
    var a := Attempt(start, start, false);
    var r4 := [a] + rest;
    var r3 := [a] + r4;
    var r2 := [a] + r3;
    var r1 := [a] + r2;
    assert Burst(start) + rest == [a] + r1;
    var c1 := Try(g, c, a);
    var c2 := Try(g, c1, a);
    var c3 := Try(g, c2, a);
    var c4 := Try(g, c3, a);
    OneMore(g, c, a, r1);
    OneMore(g, c1, a, r2);
    OneMore(g, c2, a, r3);
    OneMore(g, c3, a, r4);
    OneMore(g, c4, a, rest);
  }

  lemma {:induction false} BurstsSpan(start: int, k: nat)
    ensures FailedSpan(Bursts(start, k), start, start + LOCKOUT_MS * k) && |Bursts(start, k)| > 0
        && Bursts(start, k)[0].at == start
    decreases k
  {
    if k > 0 {
      BurstsSpan(start + LOCKOUT_MS, k - 1);
      var rest, all := Bursts(start + LOCKOUT_MS, k - 1), Bursts(start, k);
      forall i | 0 <= i < |all| ensures i < 5 ==> all[i] == Attempt(start, start, false) {
      }
      forall i | 5 <= i < |all| ensures all[i] == rest[i - 5] {
      }
      forall i | 0 <= i < |all| - 1 ensures all[i].done <= all[i + 1].at {
        if i >= 5 { assert all[i + 1] == rest[i - 5 + 1]; }
      }
    }
  }

  lemma {:induction false} BoundIsReached(g: Gate, c: Counters, start: int, k: nat)
    requires c.failed == 0 && c.until <= start && start >= 0
    ensures FailedSpan(Bursts(start, k), start, start + LOCKOUT_MS * k)
    ensures Evaluated(g, c, Bursts(start, k)) == MAX_ATTEMPTS * (k + 1)
    decreases k
  {
    BurstsSpan(start, k);
    if k == 0 {
      BurstCounts(g, c, start, []);
      assert Burst(start) + [] == Burst(start);
    } else {
      BoundIsReached(g, Counters(0, start + LOCKOUT_MS), start + LOCKOUT_MS, k - 1);
      BurstCounts(g, c, start, Bursts(start + LOCKOUT_MS, k - 1));
    }
  }
}
