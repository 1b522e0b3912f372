/** The order in which waiting reports are tried, and which uploaded ones are kept. */
module UploadOrder {
  import opened FixedWidth
  import opened Wrappers
  import opened ReportNames
  import opened RetryRotation
  import opened DiagnosticsQueue
  import opened DiagnosticsHistory

  // ---------------------------------------------------------------------------
  // Pruning
  // ---------------------------------------------------------------------------

  function JsonNames(names: set<string>): set<string> {
    set n | n in names && IsJson(n)
  }

  function Elements(s: seq<string>): set<string> {
    set n | n in s
  }

  lemma ElementsOneMore(s: seq<string>, i: nat)
    requires i < |s|
    ensures Elements(s[..i + 1]) == Elements(s[..i]) + {s[i]}
  {
    assert s[..i + 1] == s[..i] + [s[i]];
  }

  lemma {:induction false} IncreasingAreDistinct(s: seq<string>)
    requires Increasing(s)
    ensures |Elements(s)| == |s|
  {
    if s != [] {
      IncreasingAreDistinct(s[1..]);
      assert s[0] !in s[1..] by {
        LessIsTotal(s[0], s[0]);
      }
      assert Elements(s) == {s[0]} + Elements(s[1..]);
    }
  }

  /** Cut anywhere, an increasing sequence falls into smaller and greater names. */
  lemma CutInOrder(s: seq<string>, cut: nat)
    requires Increasing(s) && cut <= |s|
    ensures Elements(s) == Elements(s[..cut]) + Elements(s[cut..]) && Elements(s[..cut]) !! Elements(s[cut..])
    ensures |Elements(s[cut..])| == |s| - cut
    ensures forall r, k :: r in Elements(s[..cut]) && k in Elements(s[cut..]) ==> Less(r, k)
  {
    assert s == s[..cut] + s[cut..];
    IncreasingAreDistinct(s[cut..]);
    forall r, k | r in Elements(s[..cut]) && k in Elements(s[cut..])
      ensures Less(r, k) && r != k
    {
      LessAcross(s, cut, r, k);
    }
  }

  lemma LessAcross(s: seq<string>, cut: nat, r: string, k: string)
    requires Increasing(s) && cut <= |s| && r in s[..cut] && k in s[cut..]
    ensures Less(r, k) && r != k
  {
    var i :| 0 <= i < cut && s[i] == r;
    var j :| cut <= j < |s| && s[j] == k;
    LessIsTotal(r, r);
  }

  lemma GreaterIsAfter(names: set<string>, s: seq<string>, i: nat, n: string)
    requires Increasing(s) && Elements(s) == JsonNames(names) && i < |s|
    ensures n in Greater(names, s[i]) <==> n in s[i + 1..]
  {
    assert n in JsonNames(names) <==> n in Elements(s);
    if n in s {
      var j :| 0 <= j < |s| && s[j] == n;
      LessIsTotal(s[i], s[j]);
      assert j > i ==> s[i + 1..][j - i - 1] == n;
      assert n in s[i + 1..] ==> Less(s[i], n);
    }
  }

  /** In order, the names greater than the one at place `i` are those after it. */
  lemma GreaterAreAfter(names: set<string>, s: seq<string>, i: nat)
    requires Increasing(s) && Elements(s) == JsonNames(names) && i < |s|
    ensures |Greater(names, s[i])| == |s| - i - 1
  {
    forall n
      ensures n in Greater(names, s[i]) <==> n in s[i + 1..]
    {
      GreaterIsAfter(names, s, i, n);
    }
    assert Greater(names, s[i]) == Elements(s[i + 1..]);
    IncreasingAreDistinct(s[i + 1..]);
  }

  /** How many of the sorted names pruning drops. */
  function Excess(n: nat): (drop: nat)
    ensures drop <= n
  {
    if n > MAX_SENT_REPORTS then n - MAX_SENT_REPORTS else 0
  }

  /** Pruning drops exactly the first of the sorted names, all but the last three. */
  lemma PruningDropsTheFirst(names: set<string>, s: seq<string>, n: string)
    requires Increasing(s) && Elements(s) == JsonNames(names) && n in names
    ensures SurvivesPruning(names, n) <==> n !in s[..Excess(|s|)]
  {
    var drop := Excess(|s|);
    CutInOrder(s, drop);
    if IsJson(n) {
      assert n in Elements(s);
      var i :| 0 <= i < |s| && s[i] == n;
      GreaterAreAfter(names, s, i);
      assert if i < drop then n in s[..drop] else n in s[drop..] by {
        if i < drop { assert s[..drop][i] == n; } else { assert s[drop..][i - drop] == n; }
      }
      assert n in s[drop..] ==> n in Elements(s[drop..]);
      assert n in s[..drop] ==> n in Elements(s[..drop]);
    } else {
      assert n !in Elements(s);
    }
  }

  /** What pruning keeps are the greatest names: three of them, or all when there are fewer. */
  lemma PruningKeepsTheGreatest(sent: map<string, File>)
    ensures var kept := JsonNames(Pruned(sent).Keys); var all := JsonNames(sent.Keys);
            && kept <= all && |kept| == (if |all| > MAX_SENT_REPORTS then MAX_SENT_REPORTS else |all|)
            && forall k, r :: k in kept && r in all - kept ==> Less(r, k)
    ensures forall n :: n in sent && !IsJson(n) ==> n in Pruned(sent)
    ensures forall n :: n in Pruned(sent) ==> n in sent && Pruned(sent)[n] == sent[n]
  {
    var s := SortedNames(JsonNames(sent.Keys));
    assert Elements(s) == JsonNames(sent.Keys);
    CutInOrder(s, Excess(|s|));
    forall n | n in sent
      ensures SurvivesPruning(sent.Keys, n) <==> n !in s[..Excess(|s|)]
    {
      PruningDropsTheFirst(sent.Keys, s, n);
    }
    KeptAreTheLast(sent, s);
  }

  lemma KeptAreTheLast(sent: map<string, File>, s: seq<string>)
    requires Increasing(s) && Elements(s) == JsonNames(sent.Keys)
    requires forall n :: n in sent ==> (SurvivesPruning(sent.Keys, n) <==> n !in s[..Excess(|s|)])
    ensures JsonNames(Pruned(sent).Keys) == Elements(s[Excess(|s|)..])
    ensures JsonNames(sent.Keys) - JsonNames(Pruned(sent).Keys) == Elements(s[..Excess(|s|)])
  {
    CutInOrder(s, Excess(|s|));
    forall n
      ensures n in JsonNames(Pruned(sent).Keys) <==> n in Elements(s[Excess(|s|)..])
    {
      assert n in Elements(s) <==> n in JsonNames(sent.Keys);
      assert n in Elements(s[..Excess(|s|)]) <==> n in s[..Excess(|s|)];
    }
  }

  lemma DroppedForThreeGreater(sent: map<string, File>, name: string)
    requires name in sent && name !in Pruned(sent)
    ensures var kept := JsonNames(Pruned(sent).Keys);
            IsJson(name) && |kept| == MAX_SENT_REPORTS && forall k :: k in kept ==> Less(name, k)
  {
    PruningKeepsTheGreatest(sent);
    var kept, all := JsonNames(Pruned(sent).Keys), JsonNames(sent.Keys);
    assert name in all - kept;
    assert |all| == |kept| + |all - kept|;
  }

  /** The uploaded reports change by a move and by pruning only. */
  lemma SentAfterEvent(q: Queue, e: Event)
    ensures var sent := Next(q, e).sent;
            || sent == q.sent
            || sent == Pruned(q.sent)
            || (e.Move? && e.name in q.pending && sent == q.sent[e.name := q.pending[e.name]])
  {
    if !(e.Move? || e.Prune? || Reloads(e)) {
      OthersKeepSent(q, e);
    }
  }

  lemma OthersKeepSent(q: Queue, e: Event)
    requires !(e.Move? || e.Prune? || Reloads(e))
    ensures Next(q, e).sent == q.sent
  {
  }

  /** An uploaded report is removed only when three with greater names stay. */
  lemma SentLeavesOnlyByPruning(w: World, e: Event, name: string)
    requires name in w.queue.sent && name !in Advance(w, e).queue.sent
    ensures var kept := JsonNames(Advance(w, e).queue.sent.Keys);
            IsJson(name) && |kept| == MAX_SENT_REPORTS && forall k :: k in kept ==> Less(name, k)
  {
    SentAfterEvent(w.queue, e);
    DroppedForThreeGreater(w.queue.sent, name);
  }

  /** Where pruning happens, at a success and at every start of the process, at most three reports are left. */
  lemma PruningLeavesThree(q: Queue, e: Event)
    requires e.Prune? || Reloads(e)
    ensures |JsonNames(Next(q, e).sent.Keys)| <= MAX_SENT_REPORTS
  {
    PruningKeepsTheGreatest(q.sent);
    assert Next(q, e).sent == Pruned(q.sent);
  }

  lemma SubsetIsNoLarger(a: set<string>, b: set<string>)
    requires a <= b
    ensures |a| <= |b|
  {
    assert |b| == |a| + |b - a|;
  }

  /** Pruning never lets the number of greater names fall below three. */
  lemma PruningKeepsThreeGreater(sent: map<string, File>, name: string)
    requires |Greater(sent.Keys, name)| >= MAX_SENT_REPORTS
    ensures |Greater(Pruned(sent).Keys, name)| >= MAX_SENT_REPORTS
  {
    PruningKeepsTheGreatest(sent);
    var kept, all, above := JsonNames(Pruned(sent).Keys), JsonNames(sent.Keys), Greater(sent.Keys, name);
    SubsetIsNoLarger(above, all);
    if forall k :: k in kept ==> Less(name, k) {
      assert Greater(Pruned(sent).Keys, name) == kept;
    } else {
      var k :| k in kept && !Less(name, k);
      forall g | g in above
        ensures g in kept
      {
        LessIsTotal(name, k);
        if g in all - kept {
          assert Less(g, k);
          if name != k {
            LessIsTransitive(g, k, name);
          }
          LessIsTotal(g, name);
        }
      }
      assert Greater(Pruned(sent).Keys, name) == above;
    }
  }

  /** A report that was uploaded is still there, or at least three with greater names are. */
  predicate KeptOrSuperseded(sent: map<string, File>, name: string) {
    name in sent || |Greater(sent.Keys, name)| >= MAX_SENT_REPORTS
  }

  lemma StepKeepsOrSupersedes(w: World, e: Event, name: string)
    requires KeptOrSuperseded(w.queue.sent, name)
    ensures KeptOrSuperseded(Advance(w, e).queue.sent, name)
  {
    var sent, sent' := w.queue.sent, Advance(w, e).queue.sent;
    SentAfterEvent(w.queue, e);
    if sent' == Pruned(sent) {
      if name in sent && name !in sent' {
        DroppedForThreeGreater(sent, name);
        assert Greater(sent'.Keys, name) == JsonNames(sent'.Keys);
      } else if name !in sent {
        PruningKeepsThreeGreater(sent, name);
      }
    } else {
      SubsetIsNoLarger(Greater(sent.Keys, name), Greater(sent'.Keys, name));
    }
  }

  /** A pruning that was cut short is completed by the next one. */
  lemma InterruptedPruningIsCompleted(sent: map<string, File>, removed: set<string>)
    requires removed <= sent.Keys - Pruned(sent).Keys
    ensures Pruned(sent - removed) == Pruned(sent)
  {
    var rest := sent - removed;
    forall n | n in sent
      ensures n in Pruned(rest) <==> n in Pruned(sent)
    {
      if n in Pruned(sent) {
        SubsetIsNoLarger(Greater(rest.Keys, n), Greater(sent.Keys, n));
      } else if n in rest {
        DroppedForThreeGreater(sent, n);
        assert JsonNames(Pruned(sent).Keys) <= Greater(rest.Keys, n);
        SubsetIsNoLarger(JsonNames(Pruned(sent).Keys), Greater(rest.Keys, n));
      }
    }
  }

  // ---------------------------------------------------------------------------
  // Retrying
  // ---------------------------------------------------------------------------

  /** The event is an ordinary attempt that gets as far as choosing a report. */
  predicate Tries(q: Queue, e: Event) {
    e.Candidate? && !e.latest && Chooses(q, e.now, e.latest)
  }

  /** No other kind of attempt, and the same reports to choose from throughout. */
  ghost predicate Undisturbed(ws: seq<World>, es: seq<Event>, i: nat, j: nat, reports: seq<string>) {
    && i <= j <= |es| && |ws| == |es| + 1 && reports != []
    && (forall k :: i <= k <= j ==> Choices(ws[k].queue) == reports)
    && (forall k :: i <= k < j && es[k].Candidate? ==> !es[k].latest)
  }

  function TriesIn(ws: seq<World>, es: seq<Event>, i: nat, j: nat): seq<bool>
    requires i <= j <= |es| && |ws| == |es| + 1
  {
    seq(j - i, k requires 0 <= k < j - i => Tries(ws[i + k].queue, es[i + k]))
  }

  function LastsIn(ws: seq<World>, i: nat, j: nat): seq<Option<string>>
    requires i <= j < |ws|
  {
    seq(j - i + 1, k requires 0 <= k <= j - i => LastOf(ws[i + k]))
  }

  /** The reports tried between two points of a run that chooses from `reports` throughout. */
  function Tried(ws: seq<World>, es: seq<Event>, i: nat, j: nat, reports: seq<string>): seq<string>
    requires i <= j <= |es| && |ws| == |es| + 1 && reports != []
  {
    Picked(reports, TriesIn(ws, es, i, j), LastsIn(ws, i, j))
  }

  lemma LastAttemptedAfter(w: World, e: Event)
    requires SessionInv(w) && (e.Candidate? ==> !e.latest)
    ensures Advance(w, e).queue.memory.lastAttempted ==
              if Tries(w.queue, e) then NextReportName(Choices(w.queue), w.queue.memory.lastAttempted)
              else w.queue.memory.lastAttempted
  {
    if Reloads(e) {
      ReloadReadsTheStateFile(w, e);
    }
  }

  function LastOf(w: World): Option<string> {
    w.queue.memory.lastAttempted
  }

  /** A try moves the remembered name on to the next report; anything else leaves it. */
  predicate Remembers(reports: seq<string>, tries: bool, last: Option<string>, last': Option<string>)
    requires reports != []
  {
    last' == if tries then Some(reports[NextPlace(reports, last)]) else last
  }

  lemma StepRemembers(ws: seq<World>, es: seq<Event>, k: nat, reports: seq<string>)
    requires IsRun(ws, es) && k < |es| && (es[k].Candidate? ==> !es[k].latest)
    requires reports != [] && Choices(ws[k].queue) == reports
    ensures Remembers(reports, Tries(ws[k].queue, es[k]), LastOf(ws[k]), LastOf(ws[k + 1]))
  {
    RunKeepsInvariant(ws, es, k);
    LastAttemptedAfter(ws[k], es[k]);
  }

  lemma EachStepRemembers(ws: seq<World>, es: seq<Event>, i: nat, j: nat, reports: seq<string>)
    requires IsRun(ws, es) && Undisturbed(ws, es, i, j, reports)
    ensures forall k :: i <= k < j ==>
              Remembers(reports, Tries(ws[k].queue, es[k]), LastOf(ws[k]), LastOf(ws[k + 1]))
  {
    forall k | i <= k < j
      ensures Remembers(reports, Tries(ws[k].queue, es[k]), LastOf(ws[k]), LastOf(ws[k + 1]))
    {
      StepRemembers(ws, es, k, reports);
    }
  }

  lemma RunRemembers(ws: seq<World>, es: seq<Event>, i: nat, j: nat, reports: seq<string>)
    requires i <= j <= |es| && |ws| == |es| + 1 && reports != []
    requires forall k :: i <= k < j ==>
               Remembers(reports, Tries(ws[k].queue, es[k]), LastOf(ws[k]), LastOf(ws[k + 1]))
    ensures var tries, lasts := TriesIn(ws, es, i, j), LastsIn(ws, i, j);
            forall k :: 0 <= k < |tries| ==> Remembers(reports, tries[k], lasts[k], lasts[k + 1])
  {
    var tries, lasts := TriesIn(ws, es, i, j), LastsIn(ws, i, j);
    forall k | 0 <= k < |tries|
      ensures Remembers(reports, tries[k], lasts[k], lasts[k + 1])
    {
      assert lasts[k + 1] == LastOf(ws[i + k + 1]);
      assert Remembers(reports, Tries(ws[i + k].queue, es[i + k]), LastOf(ws[i + k]), LastOf(ws[i + k + 1]));
    }
  }

  lemma ChoicesIncrease(q: Queue)
    ensures Increasing(Choices(q))
  {
  }

  /**
   No report starves: while the waiting reports stay the same, as many ordinary attempts as there
   are reports try each exactly once, however many cannot be read and whatever was tried before.
   */
  lemma NoReportStarves(ws: seq<World>, es: seq<Event>, i: nat, j: nat, reports: seq<string>)
    requires IsRun(ws, es) && Undisturbed(ws, es, i, j, reports)
    requires |Tried(ws, es, i, j, reports)| == |reports|
    ensures multiset(Tried(ws, es, i, j, reports)) == multiset(reports)
  {
    ChoicesIncrease(ws[i].queue);
    EachStepRemembers(ws, es, i, j, reports);
    RunRemembers(ws, es, i, j, reports);
    AsManyTriesAsReports(reports, TriesIn(ws, es, i, j), LastsIn(ws, i, j));
  }

  /** The event clears the count of failures: a recorded success, or an attempt that finds nothing waiting. */
  predicate ClearsFailures(q: Queue, e: Event) {
    || e.RecordSuccess?
    || (e.Candidate? && Chooses(q, e.now, e.latest) && Choices(q) == [])
  }

  /** What sets the time of the next attempt. */
  predicate Reschedules(q: Queue, e: Event) {
    e.Fail? || ClearsFailures(q, e)
  }

  lemma NextUploadAfter(w: World, e: Event)
    requires SessionInv(w) && !Reschedules(w.queue, e)
    ensures Advance(w, e).queue.memory.nextUploadAt == w.queue.memory.nextUploadAt
  {
    if Reloads(e) {
      ReloadReadsTheStateFile(w, e);
    }
  }

  function NextUploadOf(w: World): Time {
    w.queue.memory.nextUploadAt
  }

  lemma StepKeepsSchedule(ws: seq<World>, es: seq<Event>, k: nat)
    requires IsRun(ws, es) && k < |es| && !Reschedules(ws[k].queue, es[k])
    ensures NextUploadOf(ws[k + 1]) == NextUploadOf(ws[k])
  {
    RunKeepsInvariant(ws, es, k);
    NextUploadAfter(ws[k], es[k]);
  }

  lemma {:induction false} ScheduleStands(ws: seq<World>, i: nat, k: nat)
    requires i <= k < |ws|
    requires forall j :: i <= j < k ==> NextUploadOf(ws[j + 1]) == NextUploadOf(ws[j])
    ensures NextUploadOf(ws[k]) == NextUploadOf(ws[i])
    decreases k - i
  {
    if i < k {
      ScheduleStands(ws, i, k - 1);
      assert NextUploadOf(ws[k - 1 + 1]) == NextUploadOf(ws[k - 1]);
    }
  }

  /** An ordinary attempt keeps to the time set when it was last set. */
  lemma WaitsForTheSchedule(ws: seq<World>, es: seq<Event>, i: nat, k: nat)
    requires IsRun(ws, es) && i < k < |es| && Tries(ws[k].queue, es[k])
    requires forall j :: i < j < k ==> !Reschedules(ws[j].queue, es[j])
    ensures es[k].now >= NextUploadOf(ws[i + 1])
  {
    forall j | i < j < k
      ensures NextUploadOf(ws[j + 1]) == NextUploadOf(ws[j])
    {
      StepKeepsSchedule(ws, es, j);
    }
    ScheduleStands(ws, i + 1, k);
  }

  /** After a failure no ordinary attempt is made before the delay has passed, restarts or not. */
  lemma BacksOffAfterFailure(ws: seq<World>, es: seq<Event>, i: nat, k: nat)
    requires IsRun(ws, es) && i < k < |es| && es[i].Fail? && Tries(ws[k].queue, es[k])
    requires forall j :: i < j < k ==> !Reschedules(ws[j].queue, es[j])
    ensures es[k].now >= Clamped(es[i].now + RetryDelay(ws[i].queue.memory.retryAttempt))
  {
    WaitsForTheSchedule(ws, es, i, k);
  }

  /** After a success with more reports waiting, no ordinary attempt is made before the spacing has passed. */
  lemma SpacesOutUploads(ws: seq<World>, es: seq<Event>, i: nat, k: nat)
    requires IsRun(ws, es) && i < k < |es| && es[i].RecordSuccess? && Choices(ws[i].queue) != []
    requires Tries(ws[k].queue, es[k])
    requires forall j :: i < j < k ==> !Reschedules(ws[j].queue, es[j])
    ensures es[k].now >= Clamped(es[i].now + SUCCESS_UPLOAD_SPACING_SECONDS)
  {
    WaitsForTheSchedule(ws, es, i, k);
    RecordingSchedules(ws[i], es[i]);
  }

  lemma RecordingSchedules(w: World, e: Event)
    requires e.RecordSuccess? && Choices(w.queue) != []
    ensures NextUploadOf(Advance(w, e)) == Clamped(e.now + SUCCESS_UPLOAD_SPACING_SECONDS)
  {
  }

  /** The failures since the last success, or since nothing was waiting. */
  function FailuresInARow(ws: seq<World>, es: seq<Event>, k: nat): nat
    requires k <= |es| && |ws| == |es| + 1
  {
    if k == 0 || ClearsFailures(ws[k - 1].queue, es[k - 1]) then 0
    else FailuresInARow(ws, es, k - 1) + if es[k - 1].Fail? then 1 else 0
  }

  lemma FailuresAfter(w: World, e: Event)
    requires SessionInv(w)
    ensures var n, n' := w.queue.memory.retryAttempt, Advance(w, e).queue.memory.retryAttempt;
            n' == if ClearsFailures(w.queue, e) then 0 else if e.Fail? then (if n < 4 then n + 1 else 4) else n
  {
    if Reloads(e) {
      ReloadReadsTheStateFile(w, e);
    }
  }

  /** The delay grows with the failures in a row, up to the longest, across restarts. */
  lemma {:induction false} DelayFollowsFailures(ws: seq<World>, es: seq<Event>, k: nat)
    requires IsRun(ws, es) && k <= |es|
    ensures var n := FailuresInARow(ws, es, k);
            ws[k].queue.memory.retryAttempt == (if n < 4 then n else 4)
            && RetryDelay(ws[k].queue.memory.retryAttempt) == RetryDelay(n)
  {
    if k > 0 {
      DelayFollowsFailures(ws, es, k - 1);
      RunKeepsInvariant(ws, es, k - 1);
      FailuresAfter(ws[k - 1], es[k - 1]);
    }
  }

  /** The greatest of the names prints no earlier time than any other. */
  lemma GreatestPrintsTheLatest(s: seq<string>, n': string, t: Time, t': Time)
    requires Increasing(s) && s != [] && n' in s && Prints(s[|s| - 1], t) && Prints(n', t')
    ensures Printable(t') <= Printable(t)
  {
    var n := s[|s| - 1];
    var d: string, id: Uuid :| ValidScope(d) && n == PrintName(t, d, id);
    var d': string, id': Uuid :| ValidScope(d') && n' == PrintName(t', d', id');
    NamesSortByTime(t', d', id', t, d, id);
    if n == n' {
      NamesAreInjective(t, d, id, t', d', id');
    } else {
      var i :| 0 <= i < |s| && s[i] == n';
    }
  }

  lemma ChosenPrintsTheLatest(q: Queue, n: string, n': string, t: Time, t': Time)
    requires Chosen(q, true) == Some(n) && n' in Choices(q) && Prints(n, t) && Prints(n', t')
    ensures Printable(t') <= Printable(t)
  {
    GreatestPrintsTheLatest(Choices(q), n', t, t');
  }

  predicate CoversInterval(q: Queue, n: string) {
    n in q.pending && q.pending[n].Readable? && q.pending[n].report.interval.Some?
  }

  /** A waiting report of the device has a time, printed in its name: the end of the interval it covers. */
  lemma ReportHasItsTime(ws: seq<World>, es: seq<Event>, k: nat, n: string)
    requires IsRun(ws, es) && k < |ws| && n in Choices(ws[k].queue)
    ensures n in ws[k].times && Prints(n, ws[k].times[n])
    ensures CoversInterval(ws[k].queue, n) ==> ws[k].times[n] == ws[k].queue.pending[n].report.interval.value.endedAt
  {
    RunKeepsInvariant(ws, es, k);
  }

  /**
   In every run, the report chosen at logout ended, or was generated, no earlier than any other waiting
   report of the device; the end of a report that covers an interval is the end of that interval.
   */
  lemma LogoutChoosesTheLatest(ws: seq<World>, es: seq<Event>, k: nat, n: string, n': string)
    requires IsRun(ws, es) && k < |ws| && Chosen(ws[k].queue, true) == Some(n) && n' in Choices(ws[k].queue)
    ensures n in ws[k].times && n' in ws[k].times
    ensures Printable(ws[k].times[n']) <= Printable(ws[k].times[n])
    ensures CoversInterval(ws[k].queue, n) ==> ws[k].times[n] == ws[k].queue.pending[n].report.interval.value.endedAt
    ensures CoversInterval(ws[k].queue, n') ==> ws[k].times[n'] == ws[k].queue.pending[n'].report.interval.value.endedAt
  {
    ChosenIsAChoice(ws[k].queue, n);
    ReportHasItsTime(ws, es, k, n);
    ReportHasItsTime(ws, es, k, n');
    ChosenPrintsTheLatest(ws[k].queue, n, n', ws[k].times[n], ws[k].times[n']);
  }

  lemma ChosenIsAChoice(q: Queue, n: string)
    requires Chosen(q, true) == Some(n)
    ensures n in Choices(q)
  {
  }
}
