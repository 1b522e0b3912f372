/**
 Traffic totals, latency and packet loss of a connection, kept step by step and
 reported as functions of everything recorded on the current lease.
 */
module ConnectionMetrics {
  import opened FixedWidth
  import opened Wrappers
  import opened OrderStatistics

  const U32_MAX := 0xFFFF_FFFF
  const PROBE_WINDOW: nat := 12
  const INITIAL_PROBE_SAMPLES := 3
  /** Times are in nanoseconds. */
  const SECOND := 1_000_000_000
  const PROBE_INTERVAL := 10 * SECOND
  const INITIAL_PROBE_INTERVAL := 1 * SECOND

  type u64 = x: int | 0 <= x <= U64_MAX
  type u32 = x: int | 0 <= x <= U32_MAX

  function AtMost(x: int, bound: int): int {
    if x > bound then bound else x
  }

  function SaturatingAdd(a: u64, b: u64): u64 {
    AtMost(a + b, U64_MAX)
  }

  // ---------------------------------------------------------------------------
  // What the numbers mean, as functions of the history
  // ---------------------------------------------------------------------------

  /** A history, the latest entry last. */
  datatype Log<T> = Empty | Then(earlier: Log<T>, latest: T)

  datatype Call =
    | Record(leaseId: string, received: u64, sent: u64, probe: Option<Option<u32>>)
    | AskProbe(leaseId: string, now: int)

  /** What happened to the tracker: a call on a lease, or the removal of the session. */
  datatype Happening = On(call: Call) | Cleared

  /** The calls of the session now open: those since the lease last changed or was cleared. */
  function Current(history: Log<Happening>): Log<Call> {
    if history.Empty? || history.latest.Cleared? then Empty
    else Then(Continued(Current(history.earlier), history.latest.call.leaseId), history.latest.call)
  }

  /** The calls a further call on `leaseId` continues. */
  function Continued(calls: Log<Call>, leaseId: string): Log<Call> {
    if calls.Then? && calls.latest.leaseId == leaseId then calls else Empty
  }

  function Received(calls: Log<Call>): Log<u64> {
    if calls.Empty? then Empty
    else if calls.latest.Record? then Then(Received(calls.earlier), calls.latest.received)
    else Received(calls.earlier)
  }

  function Sent(calls: Log<Call>): Log<u64> {
    if calls.Empty? then Empty
    else if calls.latest.Record? then Then(Sent(calls.earlier), calls.latest.sent)
    else Sent(calls.earlier)
  }

  function Probes(calls: Log<Call>): Log<Option<u32>> {
    if calls.Empty? then Empty
    else if calls.latest.Record? && calls.latest.probe.Some? then Then(Probes(calls.earlier), calls.latest.probe.value)
    else Probes(calls.earlier)
  }

  /** The newest `n` entries. */
  function Newest<T>(log: Log<T>, n: nat): (s: seq<T>)
    ensures |s| <= n
  {
    if n == 0 || log.Empty? then [] else Newest(log.earlier, n - 1) + [log.latest]
  }

  function Latest(samples: Log<u64>): u64 {
    if samples.Empty? then 0 else samples.latest
  }

  /** The sum of the last value before each reset of the raw counter. */
  function BeforeResets(samples: Log<u64>): nat {
    if samples.Empty? then 0
    else BeforeResets(samples.earlier) + if samples.latest < Latest(samples.earlier) then Latest(samples.earlier) else 0
  }

  /** All traffic since the lease began, as far as a 64-bit counter reaches. */
  function Total(samples: Log<u64>): u64 {
    AtMost(BeforeResets(samples) + Latest(samples), U64_MAX)
  }

  predicate ProbeIsDue(last: Option<int>, probes: nat, now: int) {
    last.None? || now - last.value >= if probes < INITIAL_PROBE_SAMPLES then INITIAL_PROBE_INTERVAL else PROBE_INTERVAL
  }

  /** The time of the last probe that was due. */
  function LastProbe(calls: Log<Call>): Option<int> {
    if calls.Empty? then None
    else
      var last := LastProbe(calls.earlier);
      if calls.latest.AskProbe? && ProbeIsDue(last, |Newest(Probes(calls.earlier), PROBE_WINDOW)|, calls.latest.now)
      then Some(calls.latest.now) else last
  }

  /** The reported total never goes down, whatever the raw counter does. */
  lemma TotalNeverDecreases(samples: Log<u64>, next: u64)
    ensures Total(samples) <= Total(Then(samples, next))
  {
  }

  ghost predicate IsPrefix<T(!new)>(a: Log<T>, b: Log<T>) {
    a == b || (b.Then? && IsPrefix(a, b.earlier))
  }

  /** Along the whole history of a lease, across every restart of the tunnel, totals only grow. */
  lemma {:induction false} TotalsGrow(a: Log<u64>, b: Log<u64>)
    requires IsPrefix(a, b)
    ensures Total(a) <= Total(b)
    decreases b
  {
    if a != b {
      TotalsGrow(a, b.earlier);
      TotalNeverDecreases(b.earlier, b.latest);
    }
  }

  /** `later` continues `history` with calls on the same lease only. */
  ghost predicate Continues(history: Log<Happening>, later: Log<Happening>, leaseId: string) {
    || history == later
    || (later.Then? && later.latest.On? && later.latest.call.leaseId == leaseId
        && Continues(history, later.earlier, leaseId))
  }

  lemma {:induction false} SamplesContinue(history: Log<Happening>, later: Log<Happening>, leaseId: string)
    requires Continues(history, later, leaseId)
    requires Current(history).Then? && Current(history).latest.leaseId == leaseId
    ensures Current(later).Then? && Current(later).latest.leaseId == leaseId
    ensures IsPrefix(Received(Current(history)), Received(Current(later)))
    ensures IsPrefix(Sent(Current(history)), Sent(Current(later)))
    decreases later
  {
    if history != later {
      SamplesContinue(history, later.earlier, leaseId);
    }
  }

  /** What a snapshot reports never goes down while the lease stays the same, whatever the tunnel does. */
  lemma {:induction false} ReportedTotalsGrow(history: Log<Happening>, later: Log<Happening>, leaseId: string)
    requires Continues(history, later, leaseId)
    requires Current(history).Then? && Current(history).latest.leaseId == leaseId
    ensures Current(later).Then? && Current(later).latest.leaseId == leaseId
    ensures Total(Received(Current(history))) <= Total(Received(Current(later)))
    ensures Total(Sent(Current(history))) <= Total(Sent(Current(later)))
  {
    SamplesContinue(history, later, leaseId);
    TotalsGrow(Received(Current(history)), Received(Current(later)));
    TotalsGrow(Sent(Current(history)), Sent(Current(later)));
  }

  lemma {:induction false} NewestDropsTheOldest<T>(log: Log<T>, n: nat)
    ensures var wide := Newest(log, n + 1);
            Newest(log, n) == if |wide| == n + 1 then wide[1..] else wide
    decreases n
  {
    if n > 0 && log.Then? {
      NewestDropsTheOldest(log.earlier, n - 1);
    }
  }

  // ---------------------------------------------------------------------------
  // Probe windows
  // ---------------------------------------------------------------------------

  function Successes(probes: seq<Option<u32>>): (s: seq<u32>)
    ensures |s| + Lost(probes) == |probes|
  {
    if probes == [] then []
    else (if probes[0].Some? then [probes[0].value] else []) + Successes(probes[1..])
  }

  function Lost(probes: seq<Option<u32>>): nat {
    if probes == [] then 0 else (if probes[0].None? then 1 else 0) + Lost(probes[1..])
  }

  predicate IsReady(probes: seq<Option<u32>>) {
    |probes| >= INITIAL_PROBE_SAMPLES && Successes(probes) != []
  }

  /** `percent` of `n` is the nearest whole percentage to `lost`. */
  predicate IsLossPercent(n: nat, lost: nat, percent: int) {
    0 - n as int < 2 * (n * percent - 100 * lost) <= n
  }

  lemma LessByFactor(n: nat, a: int, b: int)
    requires n * a < n * b
    ensures a < b
  {
  }

  lemma RoundedLoss(n: nat, lost: nat)
    requires 0 < n <= PROBE_WINDOW && lost < n
    ensures var percent := (lost * 100 + n / 2) / n; IsLossPercent(n, lost, percent) && 0 <= percent <= 92
  {
    var percent := (lost * 100 + n / 2) / n;
    assert n * percent <= lost * 100 + n / 2 < n * percent + n;
    assert lost * 100 + n / 2 < n * 93;
    assert percent < 93 by {
      LessByFactor(n, percent, 93);
    }
  }

  // ---------------------------------------------------------------------------
  // The tracker
  // ---------------------------------------------------------------------------

  datatype Session = Session(leaseId: string, receivedOffset: u64, sentOffset: u64, previousReceived: u64,
                             previousSent: u64, receivedBytes: u64, sentBytes: u64,
                             probes: seq<Option<u32>>, lastProbeAt: Option<int>)

  datatype Response = Response(receivedBytes: u64, sentBytes: u64, latencyMs: Option<u32>,
                               packetLossPercent: Option<int>)

  function NewSession(leaseId: string): Session {
    Session(leaseId, 0, 0, 0, 0, 0, 0, [], None)
  }

  /** One counter's fields are the functions of its samples. */
  predicate Counts(offset: u64, previous: u64, total: u64, samples: Log<u64>) {
    offset == AtMost(BeforeResets(samples), U64_MAX) && previous == Latest(samples) && total == Total(samples)
  }

  lemma CountsOneMore(offset: u64, previous: u64, total: u64, samples: Log<u64>, next: u64)
    requires Counts(offset, previous, total, samples)
    ensures var offset' := if next < previous then SaturatingAdd(offset, previous) else offset;
            Counts(offset', next, SaturatingAdd(offset', next), Then(samples, next))
  {
  }

  /** The session holds the functions of the calls on its lease. */
  ghost predicate Sums(session: Session, leaseId: string, calls: Log<Call>) {
    && session.leaseId == leaseId
    && Counts(session.receivedOffset, session.previousReceived, session.receivedBytes, Received(calls))
    && Counts(session.sentOffset, session.previousSent, session.sentBytes, Sent(calls))
    && session.probes == Newest(Probes(calls), PROBE_WINDOW)
    && session.lastProbeAt == LastProbe(calls)
  }

  class ConnectionMetricsTracker {
    var session: Option<Session>
    ghost var history: Log<Happening>

    /** What is kept step by step is what the whole history says. */
    ghost predicate Valid()
      reads this
    {
      var calls := Current(history);
      if calls.Empty? then session.None? else session.Some? && Sums(session.value, calls.latest.leaseId, calls)
    }

    constructor ()
      ensures Valid() && history == Empty
    {
      session, history := None, Empty;
    }

    /** The session of `leaseId`, opened afresh when another lease or none was current. */
    method Open(leaseId: string) returns (current: Session)
      requires Valid()
      ensures Sums(current, leaseId, Continued(Current(history), leaseId))
    {
      current := NewSession(leaseId);
      if session.Some? && session.value.leaseId == leaseId {
        current := session.value;
      }
    }

    method ShouldProbe(leaseId: string, now: int) returns (due: bool)
      requires Valid()
      modifies this
      ensures Valid() && history == Then(old(history), On(AskProbe(leaseId, now)))
      ensures var calls := Continued(Current(old(history)), leaseId);
              due == ProbeIsDue(LastProbe(calls), |Newest(Probes(calls), PROBE_WINDOW)|, now)
    {
      var current := Open(leaseId);
      var interval := if |current.probes| < INITIAL_PROBE_SAMPLES then INITIAL_PROBE_INTERVAL else PROBE_INTERVAL;
      due := current.lastProbeAt.None? || now - current.lastProbeAt.value >= interval;
      if due {
        current := current.(lastProbeAt := Some(now));
      }
      session := Some(current);
      history := Then(history, On(AskProbe(leaseId, now)));
    }

    method RecordSample(leaseId: string, received: u64, sent: u64, probe: Option<Option<u32>>)
      requires Valid()
      modifies this
      ensures Valid() && history == Then(old(history), On(Record(leaseId, received, sent, probe)))
    {
      var current := Open(leaseId);
      ghost var calls := Continued(Current(history), leaseId);
      CountsOneMore(current.receivedOffset, current.previousReceived, current.receivedBytes, Received(calls), received);
      CountsOneMore(current.sentOffset, current.previousSent, current.sentBytes, Sent(calls), sent);
      NewestDropsTheOldest(Probes(calls), PROBE_WINDOW - 1);
      if received < current.previousReceived {
        current := current.(receivedOffset := SaturatingAdd(current.receivedOffset, current.previousReceived));
      }
      if sent < current.previousSent {
        current := current.(sentOffset := SaturatingAdd(current.sentOffset, current.previousSent));
      }
      current := current.(previousReceived := received, previousSent := sent);
      current := current.(receivedBytes := SaturatingAdd(current.receivedOffset, received),
                          sentBytes := SaturatingAdd(current.sentOffset, sent));
      if probe.Some? {
        if |current.probes| == PROBE_WINDOW {
          current := current.(probes := current.probes[1..]);
        }
        current := current.(probes := current.probes + [probe.value]);
      }
      session := Some(current);
      history := Then(history, On(Record(leaseId, received, sent, probe)));
    }

    /** The middle of the sorted latencies. */
    method MedianLatency(successful: seq<u32>) returns (latency: u32)
      requires successful != []
      ensures IsMedian(multiset(successful), latency)
    {
      SortedFindsMedian(successful, 0, U32_MAX);
      var sorted := Sorted(successful);
      var middle := |sorted| / 2;
      if |sorted| % 2 == 0 {
        latency := AtMost((sorted[middle - 1] + sorted[middle]) / 2, U32_MAX);
      } else {
        latency := sorted[middle];
      }
    }

    /** Totals, median latency and rounded loss of the calls on the open lease. */
    method Snapshot(leaseId: string) returns (response: Option<Response>)
      requires Valid()
      ensures var calls := Current(history); var probes := Newest(Probes(calls), PROBE_WINDOW);
              if calls.Empty? || calls.latest.leaseId != leaseId then response == None
              else
                && response.Some?
                && response.value.receivedBytes == Total(Received(calls))
                && response.value.sentBytes == Total(Sent(calls))
                && (response.value.latencyMs.Some? <==> IsReady(probes))
                && (response.value.packetLossPercent.Some? <==> IsReady(probes))
                && (IsReady(probes) ==>
                      && IsMedian(multiset(Successes(probes)), response.value.latencyMs.value)
                      && IsLossPercent(|probes|, Lost(probes), response.value.packetLossPercent.value)
                      && 0 <= response.value.packetLossPercent.value <= 92)
    {
      if session.None? || session.value.leaseId != leaseId {
        return None;
      }
      var current := session.value;
      var successful := Successes(current.probes);
      var latencyMs: Option<u32>, packetLossPercent: Option<int> := None, None;
      if |current.probes| >= INITIAL_PROBE_SAMPLES && successful != [] {
        var latency := MedianLatency(successful);
        latencyMs := Some(latency);
        var lost := Lost(current.probes);
        RoundedLoss(|current.probes|, lost);
        packetLossPercent := Some(AtMost((lost * 100 + |current.probes| / 2) / |current.probes|, 100));
      }
      response := Some(Response(current.receivedBytes, current.sentBytes, latencyMs, packetLossPercent));
    }

    method ClearSession()
      requires Valid()
      modifies this
      ensures Valid() && history == Then(old(history), Cleared)
    {
      session := None;
      history := Then(history, Cleared);
    }
  }
}
