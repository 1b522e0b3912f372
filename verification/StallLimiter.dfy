/** The sliding-window limit on attempts to recover a stalled tunnel. */
module StallLimiter {
  import opened FixedWidth
  import opened Wrappers

  const WINDOW_SECONDS := 600
  const MAX_ATTEMPTS := 2

  datatype Limiter = Limiter(leaseId: string, attempts: seq<i64>)

  /** The attempts left after the expired ones at the front are dropped. */
  function Unexpired(attempts: seq<i64>, cutoff: i64): (left: seq<i64>)
    ensures |left| <= |attempts|
    ensures left != [] ==> left[0] > cutoff
  {
    if attempts != [] && attempts[0] <= cutoff then Unexpired(attempts[1..], cutoff) else attempts
  }

  /** The expired attempts at the front. */
  function Expired(attempts: seq<i64>, cutoff: i64): (gone: seq<i64>)
    ensures attempts == gone + Unexpired(attempts, cutoff)
    ensures AllBefore(gone, cutoff)
  {
    if attempts != [] && attempts[0] <= cutoff then [attempts[0]] + Expired(attempts[1..], cutoff) else []
  }

  predicate AllBefore(times: seq<i64>, bound: int) {
    forall i :: 0 <= i < |times| ==> times[i] <= bound
  }

  /** The attempts that count against an attempt on `leaseId` at `now`. */
  function Counted(l: Limiter, leaseId: string, now: i64): seq<i64> {
    Unexpired(if l.leaseId == leaseId then l.attempts else [], Clamped(now - WINDOW_SECONDS))
  }

  predicate Admits(l: Limiter, leaseId: string, now: i64) {
    |Counted(l, leaseId, now)| < MAX_ATTEMPTS
  }

  function Begun(l: Limiter, leaseId: string, now: i64): Limiter {
    var left := Counted(l, leaseId, now);
    Limiter(leaseId, if Admits(l, leaseId, now) then left + [now] else left)
  }

  predicate Cancels(l: Limiter, leaseId: string, attempt: i64) {
    l.leaseId == leaseId && l.attempts != [] && l.attempts[|l.attempts| - 1] == attempt
  }

  function Cancelled(l: Limiter, leaseId: string, attempt: i64): Limiter {
    if Cancels(l, leaseId, attempt) then l.(attempts := l.attempts[..|l.attempts| - 1]) else l
  }

  function NextAttemptAt(l: Limiter, leaseId: string): Option<i64> {
    if l.leaseId != leaseId || |l.attempts| < MAX_ATTEMPTS then None
    else Some(Clamped(l.attempts[0] + WINDOW_SECONDS))
  }

  class StallRecoveryLimiter {
    var leaseId: string
    var attempts: seq<i64>

    function View(): Limiter
      reads this
    {
      Limiter(leaseId, attempts)
    }

    constructor ()
      ensures View() == Limiter("", [])
    {
      leaseId, attempts := "", [];
    }

    method BeginAttempt(lease: string, now: i64) returns (admitted: bool)
      modifies this
      ensures View() == Begun(old(View()), lease, now)
      ensures admitted == Admits(old(View()), lease, now)
    {
      if leaseId != lease {
        leaseId := lease;
        attempts := [];
      }
      var cutoff := Clamped(now - WINDOW_SECONDS);
      while attempts != [] && attempts[0] <= cutoff
        invariant leaseId == lease
        invariant Unexpired(attempts, cutoff) == Counted(old(View()), lease, now)
        decreases |attempts|
      {
        attempts := attempts[1..];
      }
      if |attempts| >= MAX_ATTEMPTS {
        return false;
      }
      attempts := attempts + [now];
      admitted := true;
    }

    method CancelAttempt(lease: string, attempt: i64)
      modifies this
      ensures View() == Cancelled(old(View()), lease, attempt)
    {
      if leaseId == lease && attempts != [] && attempts[|attempts| - 1] == attempt {
        attempts := attempts[..|attempts| - 1];
      }
    }

    method NextAttemptAtUnix(lease: string) returns (at: Option<i64>)
      ensures at == NextAttemptAt(View(), lease)
    {
      if leaseId != lease || |attempts| < MAX_ATTEMPTS {
        return None;
      }
      at := Some(Clamped(attempts[0] + WINDOW_SECONDS));
    }

    method Reset()
      modifies this
      ensures View() == Limiter("", [])
    {
      leaseId := "";
      attempts := [];
    }
  }

  /**
   An attempt is admitted exactly when the announced time has come, at every time of the range
   but two: the announcement is cut off at the latest time, and the window at the earliest.
   */
  lemma AdmittedExactlyWhenAnnounced(l: Limiter, leaseId: string, now: i64)
    requires |l.attempts| <= MAX_ATTEMPTS
    ensures var next := NextAttemptAt(l, leaseId);
            (Admits(l, leaseId, now) <==> next.None? || next.value <= now) <==>
            !(next.Some? && (|| (now == I64_MAX && l.attempts[0] > I64_MAX - WINDOW_SECONDS)
                             || (now < I64_MIN + WINDOW_SECONDS && l.attempts[0] == I64_MIN)))
  {
    if l.leaseId == leaseId && |l.attempts| == MAX_ATTEMPTS {
      var cutoff := Clamped(now - WINDOW_SECONDS);
      assert l.attempts[0] <= cutoff ==> |Unexpired(l.attempts[1..], cutoff)| <= 1;
    }
  }

  // ---------------------------------------------------------------------------
  // Runs
  // ---------------------------------------------------------------------------

  datatype Call = Begin(leaseId: string, now: i64) | Cancel(leaseId: string, attempt: i64) | Reset

  function Called(l: Limiter, c: Call): Limiter {
    match c
    case Begin(leaseId, now) => Begun(l, leaseId, now)
    case Cancel(leaseId, attempt) => Cancelled(l, leaseId, attempt)
    case Reset => Limiter("", [])
  }

  /** Any calls at all, whatever their times do. */
  ghost predicate AreCalls(ls: seq<Limiter>, cs: seq<Call>) {
    && |ls| == |cs| + 1
    && ls[0] == Limiter("", [])
    && forall i :: 0 <= i < |cs| ==> ls[i + 1] == Called(ls[i], cs[i])
  }

  lemma {:induction false} RemembersAtMostTwo(ls: seq<Limiter>, cs: seq<Call>, i: nat)
    requires AreCalls(ls, cs) && i < |ls|
    ensures |ls[i].attempts| <= MAX_ATTEMPTS
  {
    if i > 0 {
      RemembersAtMostTwo(ls, cs, i - 1);
      assert ls[i] == Called(ls[i - 1], cs[i - 1]);
    }
  }

  /** The law of the announced time, after any calls at all. */
  lemma AnnouncementHoldsAfterAnyCalls(ls: seq<Limiter>, cs: seq<Call>, i: nat, leaseId: string, now: i64)
    requires AreCalls(ls, cs) && i < |ls|
    ensures var l, next := ls[i], NextAttemptAt(ls[i], leaseId);
            (Admits(l, leaseId, now) <==> next.None? || next.value <= now) <==>
            !(next.Some? && (|| (now == I64_MAX && l.attempts[0] > I64_MAX - WINDOW_SECONDS)
                             || (now < I64_MIN + WINDOW_SECONDS && l.attempts[0] == I64_MIN)))
  {
    RemembersAtMostTwo(ls, cs, i);
    AdmittedExactlyWhenAnnounced(ls[i], leaseId, now);
  }

  /**
   The limiter with the admitted attempts on its lease that were not cancelled, however old,
   those of them it dropped as expired, and the time of the last call of `Begin` on that lease.
   */
  datatype Record = Record(limiter: Limiter, kept: seq<i64>, forgotten: seq<i64>, clock: Option<i64>)

  const UNUSED := Record(Limiter("", []), [], [], None)

  /** On one lease the clock does not go backwards, and the window does not reach below the range. */
  predicate InOrder(r: Record, c: Call) {
    c.Begin? ==>
      && I64_MIN + WINDOW_SECONDS <= c.now
      && (c.leaseId == r.limiter.leaseId && r.clock.Some? ==> r.clock.value <= c.now)
  }

  /** The record `Begin` starts from: a change of lease forgets everything. */
  function OnLease(r: Record, leaseId: string): Record {
    if leaseId == r.limiter.leaseId then r else Record(Limiter(leaseId, []), [], [], None)
  }

  function Attempted(r: Record, now: i64): (r': Record)
    ensures r'.limiter == Begun(r.limiter, r.limiter.leaseId, now)
  {
    var cutoff := Clamped(now - WINDOW_SECONDS);
    var left := Unexpired(r.limiter.attempts, cutoff);
    var gone := r.forgotten + Expired(r.limiter.attempts, cutoff);
    if |left| < MAX_ATTEMPTS
    then Record(r.limiter.(attempts := left + [now]), r.kept + [now], gone, Some(now))
    else Record(r.limiter.(attempts := left), r.kept, gone, Some(now))
  }

  function After(r: Record, c: Call): (r': Record)
    ensures c.Begin? ==> r'.limiter == Begun(r.limiter, c.leaseId, c.now)
    ensures c.Cancel? ==> r'.limiter == Cancelled(r.limiter, c.leaseId, c.attempt)
  {
    match c
    case Begin(leaseId, now) => Attempted(OnLease(r, leaseId), now)
    case Cancel(leaseId, attempt) =>
      r.(limiter := Cancelled(r.limiter, leaseId, attempt),
         kept := if Cancels(r.limiter, leaseId, attempt) && r.kept != [] then r.kept[..|r.kept| - 1] else r.kept)
    case Reset => UNUSED
  }

  ghost predicate IsRun(rs: seq<Record>, cs: seq<Call>) {
    && |rs| == |cs| + 1
    && rs[0] == UNUSED
    && forall i :: 0 <= i < |cs| ==> InOrder(rs[i], cs[i]) && rs[i + 1] == After(rs[i], cs[i])
  }

  predicate Ordered(kept: seq<i64>) {
    forall i, j :: 0 <= i < j < |kept| ==> kept[i] <= kept[j]
  }

  predicate SpacedOut(kept: seq<i64>) {
    forall i, j :: 0 <= i && i + 2 <= j < |kept| ==> kept[j] - kept[i] >= WINDOW_SECONDS
  }

  /** The limiter remembers the newest kept attempts; what it forgot has left the window. */
  ghost predicate Inv(r: Record) {
    && |r.limiter.attempts| <= MAX_ATTEMPTS
    && r.kept == r.forgotten + r.limiter.attempts
    && Ordered(r.kept) && SpacedOut(r.kept)
    && (r.kept != [] ==> r.clock.Some?)
    && (r.clock.Some? ==> AllBefore(r.kept, r.clock.value) && AllBefore(r.forgotten, r.clock.value - WINDOW_SECONDS))
  }

  lemma OneMore(forgotten: seq<i64>, left: seq<i64>, now: i64)
    requires Ordered(forgotten + left) && SpacedOut(forgotten + left)
    requires AllBefore(forgotten + left, now) && AllBefore(forgotten, now - WINDOW_SECONDS) && |left| <= 1
    ensures var kept := forgotten + left + [now]; Ordered(kept) && SpacedOut(kept) && AllBefore(kept, now)
  {
  }

  lemma Regrouped(a: seq<i64>, b: seq<i64>, c: seq<i64>, x: i64)
    ensures a + (b + c) == (a + b) + c
    ensures a + (b + c) + [x] == (a + b) + (c + [x])
  {
    assert a + (b + c) == (a + b) + c;
    assert a + (b + c) + [x] == (a + b) + (c + [x]);
  }

  /** What `Begin` makes of the attempts on its lease. */
  lemma Begins(forgotten: seq<i64>, attempts: seq<i64>, now: i64, cutoff: i64)
    requires cutoff == now - WINDOW_SECONDS
    requires Ordered(forgotten + attempts) && SpacedOut(forgotten + attempts)
    requires AllBefore(forgotten + attempts, now) && AllBefore(forgotten, cutoff)
    ensures var left := Unexpired(attempts, cutoff);
            var gone := forgotten + Expired(attempts, cutoff);
            && AllBefore(gone, cutoff)
            && forgotten + attempts == gone + left
            && (|left| < MAX_ATTEMPTS ==>
                  var kept := forgotten + attempts + [now];
                  kept == gone + (left + [now]) && Ordered(kept) && SpacedOut(kept) && AllBefore(kept, now))
  {
    var left := Unexpired(attempts, cutoff);
    var gone := forgotten + Expired(attempts, cutoff);
    Regrouped(forgotten, Expired(attempts, cutoff), left, now);
    if |left| < MAX_ATTEMPTS {
      OneMore(gone, left, now);
    }
  }

  lemma AttemptKeepsInv(r: Record, now: i64)
    requires Inv(r) && I64_MIN + WINDOW_SECONDS <= now
    requires r.clock.Some? ==> r.clock.value <= now
    ensures Inv(Attempted(r, now))
  {
    assert AllBefore(r.kept, now) && AllBefore(r.forgotten, now - WINDOW_SECONDS);
    Begins(r.forgotten, r.limiter.attempts, now, Clamped(now - WINDOW_SECONDS));
  }

  lemma CancelKeepsInv(r: Record, leaseId: string, attempt: i64)
    requires Inv(r)
    ensures Inv(After(r, Cancel(leaseId, attempt)))
  {
    if Cancels(r.limiter, leaseId, attempt) {
      var attempts := r.limiter.attempts;
      assert r.kept[..|r.kept| - 1] == r.forgotten + attempts[..|attempts| - 1];
    }
  }

  /** Any three uncancelled admitted attempts on one lease span at least the window. */
  lemma {:induction false} AttemptsAreSpacedOut(rs: seq<Record>, cs: seq<Call>, i: nat)
    requires IsRun(rs, cs) && i < |rs|
    ensures Inv(rs[i])
    ensures SpacedOut(rs[i].kept)
  {
    if i > 0 {
      AttemptsAreSpacedOut(rs, cs, i - 1);
      match cs[i - 1]
      case Begin(leaseId, now) => AttemptKeepsInv(OnLease(rs[i - 1], leaseId), now);
      case Cancel(leaseId, attempt) => CancelKeepsInv(rs[i - 1], leaseId, attempt);
      case Reset =>
    }
  }
}
