/** What holds of the diagnostics queue over every run, with crashes at any point between two writes. */
module DiagnosticsHistory {
  import opened FixedWidth
  import opened Wrappers
  import opened ReportNames
  import opened DiagnosticsQueue

  /** How far the upload of a candidate has come. */
  datatype Stage = Waiting | Gone | Counted

  /** A live upload candidate: whoever holds it may report its success or release it. */
  datatype Lease = Lease(name: string, stage: Stage)

  /** The finished intervals of a session, in order, and the time it was opened. */
  datatype Chapter = Chapter(start: Time, intervals: seq<Interval>)

  /**
   The queue with what happened to it: the identifiers drawn so far, the chapter of each session, the
   identifiers of finished seals and of intent reports, the report each file name was written for, the
   time each file's report ended or was generated at, and the live candidates by the number each was
   given out under.
   */
  datatype World = World(queue: Queue, used: set<string>, chapters: map<string, Chapter>, done: set<string>,
                         owner: map<string, string>, times: map<string, Time>,
                         leases: map<nat, Lease>, candidates: nat)

  const EMPTY := World(Queue(DEFAULT, DEFAULT, map[], map[], false), {}, map[], {}, map[], map[], map[], 0)

  predicate IsUuidText(s: string) {
    ParseUuid(s).Some? && Hyphenated(ParseUuid(s).value) == s
  }

  predicate Fresh(w: World, id: string) {
    IsUuidText(id) && id !in w.used
  }

  /**
   Identifiers are drawn fresh, a report passed for a seal is the one built from it, and only a
   holder of a live candidate reports its success or releases it.
   */
  predicate Enabled(w: World, e: Event) {
    match e
    case Observe(_, _, _, sessionId, newReportId) =>
      Fresh(w, sessionId) && Fresh(w, newReportId) && sessionId != newReportId
    case Materialize(seal, report, _) => report.interval == Some(IntervalOf(seal))
    case MaterializeInterrupted(seal, report) => report.interval == Some(IntervalOf(seal))
    case QueueIntent(report, _, _) =>
      report.interval == None && (report.reportId.Some? ==> Fresh(w, report.reportId.value))
    case Move(holder, name) => holder in w.leases && w.leases[holder].name == name
    case RecordSuccess(holder, _) => holder in w.leases && w.leases[holder].stage == Gone
    case Release(holder) => holder in w.leases
    case _ => true
  }

  predicate OpensSession(q: Queue, e: Event) {
    && e.Observe? && q.memory.pendingSeal.None? && q.memory.session.None?
    && e.connection.Some? && q.memory.currentDevice.Some?
  }

  predicate Finishes(q: Queue, e: Event) {
    e.Materialize? && MaterializeAnswer(q, e.seal, e.report, e.writable) == Done
  }

  /** The file name an event writes a report to, with the report's identifier. */
  function Writes(q: Queue, e: Event): Option<(string, string)> {
    match e
    case Materialize(seal, report, writable) =>
      var answer := MaterializeAnswer(q, seal, report, writable);
      if answer == Done || answer == NoSession then Some((SealName(seal).value, seal.reportId)) else None
    case MaterializeInterrupted(seal, report) =>
      var answer := MaterializeAnswer(q, seal, report, true);
      if answer == Done || answer == NoSession then Some((SealName(seal).value, seal.reportId)) else None
    case QueueIntent(report, at, writable) =>
      var name := IntentName(q, report, at);
      if name.Some? && writable then Some((name.value, report.reportId.value)) else None
    case _ => None
  }

  function Drawn(e: Event): set<string> {
    match e
    case Observe(_, _, _, sessionId, newReportId) => {sessionId, newReportId}
    case QueueIntent(report, _, _) => if report.reportId.Some? then {report.reportId.value} else {}
    case _ => {}
  }

  function Chapters(w: World, e: Event): map<string, Chapter> {
    if OpensSession(w.queue, e) then w.chapters[e.sessionId := Chapter(e.now, [])]
    else if Finishes(w.queue, e) && e.seal.sessionId in w.chapters then
      var chapter := w.chapters[e.seal.sessionId];
      w.chapters[e.seal.sessionId := chapter.(intervals := chapter.intervals + [IntervalOf(e.seal)])]
    else w.chapters
  }

  function Owners(w: World, e: Event): map<string, string> {
    var written := Writes(w.queue, e);
    if written.Some? then w.owner[written.value.0 := written.value.1] else w.owner
  }

  /** When the report the event writes ended, or was generated. */
  function TimeOf(e: Event): Time
    requires e.Materialize? || e.MaterializeInterrupted? || e.QueueIntent?
  {
    if e.QueueIntent? then e.at else e.seal.endedAt
  }

  function Times(w: World, e: Event): map<string, Time> {
    var written := Writes(w.queue, e);
    if written.Some? && written.value.0 !in w.queue.pending then w.times[written.value.0 := TimeOf(e)] else w.times
  }

  function LeasesAfter(w: World, e: Event): map<nat, Lease> {
    match e
    case Candidate(now, latest) =>
      var name := CandidateAnswer(w.queue, now, latest);
      if name.Some? then w.leases[w.candidates := Lease(name.value, Waiting)] else w.leases
    case Move(holder, name) => if name in w.queue.pending then w.leases[holder := Lease(name, Gone)] else w.leases
    case RecordSuccess(holder, _) =>
      if holder in w.leases then w.leases[holder := w.leases[holder].(stage := Counted)] else w.leases
    case Release(holder) => w.leases - {holder}
    case Restart => map[]
    case MaterializeInterrupted(_, _) => map[]
    case _ => w.leases
  }

  /** The event gives out a candidate. */
  predicate Finds(q: Queue, e: Event) {
    e.Candidate? && CandidateAnswer(q, e.now, e.latest).Some?
  }

  /** The identifiers no seal will carry from now on. */
  function Spent(q: Queue, e: Event): set<string> {
    if Finishes(q, e) then {e.seal.reportId} else if e.QueueIntent? then Drawn(e) else {}
  }

  function Advance(w: World, e: Event): World {
    World(Next(w.queue, e), w.used + Drawn(e), Chapters(w, e), w.done + Spent(w.queue, e), Owners(w, e), Times(w, e),
          LeasesAfter(w, e), if Finds(w.queue, e) then w.candidates + 1 else w.candidates)
  }

  ghost predicate IsRun(ws: seq<World>, es: seq<Event>) {
    && |ws| == |es| + 1
    && ws[0] == EMPTY
    && forall i :: 0 <= i < |es| ==> Enabled(ws[i], es[i]) && ws[i + 1] == Advance(ws[i], es[i])
  }

  // ---------------------------------------------------------------------------
  // Sessions
  // ---------------------------------------------------------------------------

  function AtMostU64(n: nat): nat {
    if n > U64_MAX then U64_MAX else n
  }

  function LastEnd(c: Chapter): Time {
    if c.intervals == [] then c.start else c.intervals[|c.intervals| - 1].endedAt
  }

  /** The interval at place `k` has the number after it and starts where the one before it ended. */
  predicate TilesAt(sessionId: string, c: Chapter, k: nat)
    requires k < |c.intervals|
  {
    && c.intervals[k].sessionId == sessionId
    && c.intervals[k].sequence == AtMostU64(k + 1)
    && c.intervals[k].startedAt == (if k == 0 then c.start else c.intervals[k - 1].endedAt)
    && c.intervals[k].startedAt <= c.intervals[k].endedAt
  }

  /** Numbered from one, without a gap or an overlap. */
  predicate Tiles(sessionId: string, c: Chapter) {
    forall k :: 0 <= k < |c.intervals| ==> TilesAt(sessionId, c, k)
  }

  /** The seal is the next interval of the session. */
  predicate SealFits(session: Session, seal: Seal) {
    && seal.sessionId == session.sessionId && seal.deviceId == session.deviceId
    && seal.sequence == NextSequence(session.sequence)
    && seal.startedAt == session.intervalStartedAt <= seal.endedAt
  }

  /** The session stands at the end of its chapter. */
  predicate SessionFits(chapters: map<string, Chapter>, session: Session) {
    && session.sessionId in chapters
    && session.sequence == AtMostU64(|chapters[session.sessionId].intervals|)
    && session.intervalStartedAt == LastEnd(chapters[session.sessionId])
    && ValidScope(session.deviceId)
  }

  ghost predicate SessionInv(w: World) {
    var a := w.queue.memory;
    && w.queue.saved == Stripped(a)
    && (a.currentDevice.Some? ==> ValidScope(a.currentDevice.value))
    && (a.session.Some? ==> SessionFits(w.chapters, a.session.value))
    && (a.pendingSeal.Some? ==> a.session.Some? && SealFits(a.session.value, a.pendingSeal.value))
    && (forall s :: s in w.chapters ==> s in w.used && Tiles(s, w.chapters[s]))
  }

  ghost predicate IdentifierInv(w: World) {
    var seal := w.queue.memory.pendingSeal;
    && w.done <= w.used
    && (seal.Some? ==>
          IsUuidText(seal.value.reportId) && seal.value.reportId in w.used && seal.value.reportId !in w.done)
  }

  /** A new process starts from the state file, whatever was written to the directories. */
  predicate Reloads(e: Event) {
    e.Restart? || e.MaterializeInterrupted?
  }

  predicate HandlesSession(e: Event) {
    e.Observe? || e.Freeze? || e.Materialize?
  }

  lemma ReloadReadsTheStateFile(w: World, e: Event)
    requires Reloads(e)
    ensures var q' := Advance(w, e).queue; q'.memory == q'.saved == w.queue.saved
    ensures Advance(w, e).chapters == w.chapters && Advance(w, e).done == w.done && Advance(w, e).used == w.used
  {
  }

  lemma OtherEventsKeepSessions(w: World, e: Event)
    requires !Reloads(e) && !HandlesSession(e) && w.queue.saved == Stripped(w.queue.memory)
    ensures var a, a' := w.queue.memory, Advance(w, e).queue.memory;
            && Advance(w, e).queue.saved == Stripped(a')
            && a'.session == a.session && a'.pendingSeal == a.pendingSeal
            && (a'.currentDevice.Some? ==> a'.currentDevice == a.currentDevice || ValidScope(a'.currentDevice.value))
    ensures Advance(w, e).chapters == w.chapters && Advance(w, e).done == w.done + Spent(w.queue, e)
    ensures w.used <= Advance(w, e).used
  {
    OthersKeepTheState(w.queue, e);
    assert !OpensSession(w.queue, e) && !Finishes(w.queue, e);
  }

  lemma OthersKeepTheState(q: Queue, e: Event)
    requires !Reloads(e) && !HandlesSession(e) && q.saved == Stripped(q.memory)
    ensures var q' := Next(q, e);
            && q'.saved == Stripped(q'.memory)
            && q'.memory.session == q.memory.session && q'.memory.pendingSeal == q.memory.pendingSeal
            && (q'.memory.currentDevice == q.memory.currentDevice ||
                (q'.memory.currentDevice.Some? ==> ValidScope(q'.memory.currentDevice.value)))
  {
    if e.Candidate? || e.RecordSuccess? || e.Fail? {
      UploadsKeepSessions(q, e);
    }
  }

  lemma UploadsKeepSessions(q: Queue, e: Event)
    requires e.Candidate? || e.RecordSuccess? || e.Fail?
    ensures var q' := Next(q, e);
            && (q' == q || q'.saved == Stripped(q'.memory))
            && q'.memory.session == q.memory.session && q'.memory.pendingSeal == q.memory.pendingSeal
            && q'.memory.currentDevice == q.memory.currentDevice
  {
  }

  lemma StepKeepsSessionInv(w: World, e: Event)
    requires Enabled(w, e) && SessionInv(w)
    ensures SessionInv(Advance(w, e))
  {
    if Reloads(e) {
      ReloadReadsTheStateFile(w, e);
    } else if !HandlesSession(e) {
      OtherEventsKeepSessions(w, e);
    } else if Finishes(w.queue, e) {
      FinishingExtendsTheChapter(w, e);
    } else if e.Observe? {
      ObservingKeepsSessionInv(w, e);
    } else {
      UnfinishedKeepsSessionInv(w, e);
    }
  }

  lemma TilesOneMore(sessionId: string, c: Chapter, next: Interval)
    requires Tiles(sessionId, c)
    requires next.sessionId == sessionId && next.sequence == AtMostU64(|c.intervals| + 1)
    requires next.startedAt == LastEnd(c) <= next.endedAt
    ensures Tiles(sessionId, c.(intervals := c.intervals + [next]))
  {
    var c' := c.(intervals := c.intervals + [next]);
    forall k | 0 <= k < |c'.intervals|
      ensures TilesAt(sessionId, c', k)
    {
      assert k < |c.intervals| ==> TilesAt(sessionId, c, k);
    }
  }

  lemma FinishingExtendsTheChapter(w: World, e: Event)
    requires SessionInv(w) && Finishes(w.queue, e)
    ensures SessionInv(Advance(w, e))
    ensures e.seal.sessionId in w.chapters
    ensures var c, c' := w.chapters[e.seal.sessionId], Advance(w, e).chapters[e.seal.sessionId];
            c'.start == c.start && c'.intervals == c.intervals + [IntervalOf(e.seal)]
  {
    TilesOneMore(e.seal.sessionId, w.chapters[e.seal.sessionId], IntervalOf(e.seal));
  }

  lemma ObservingKeepsSessionInv(w: World, e: Event)
    requires Enabled(w, e) && SessionInv(w) && e.Observe?
    ensures SessionInv(Advance(w, e))
  {
    assert OpensSession(w.queue, e) ==> Tiles(e.sessionId, Chapter(e.now, []));
  }

  lemma UnfinishedKeepsSessionInv(w: World, e: Event)
    requires SessionInv(w) && (e.Freeze? || e.Materialize?) && !Finishes(w.queue, e)
    ensures SessionInv(Advance(w, e))
  {
  }

  lemma StepKeepsIdentifierInv(w: World, e: Event)
    requires Enabled(w, e) && IdentifierInv(w) && w.queue.saved == Stripped(w.queue.memory)
    ensures IdentifierInv(Advance(w, e))
  {
    if Reloads(e) {
      ReloadReadsTheStateFile(w, e);
    } else if !HandlesSession(e) {
      OtherEventsKeepSessions(w, e);
    } else {
      HandlingKeepsIdentifierInv(w, e);
    }
  }

  lemma HandlingKeepsIdentifierInv(w: World, e: Event)
    requires Enabled(w, e) && IdentifierInv(w) && HandlesSession(e)
    ensures IdentifierInv(Advance(w, e))
  {
  }

  predicate Long(i: Interval) {
    i.endedAt - i.startedAt >= CHECKPOINT_SECONDS
  }

  predicate AllLong(intervals: seq<Interval>) {
    forall k :: 0 <= k < |intervals| ==> Long(intervals[k])
  }

  predicate LongButForTheLast(c: Chapter) {
    c.intervals == [] || AllLong(c.intervals[..|c.intervals| - 1])
  }

  /** Only the interval that ends a session may be shorter than a checkpoint. */
  ghost predicate CheckpointInv(w: World) {
    var a := w.queue.memory;
    && (forall s :: s in w.chapters ==> LongButForTheLast(w.chapters[s]))
    && (a.session.Some? && a.session.value.sessionId in w.chapters ==>
          AllLong(w.chapters[a.session.value.sessionId].intervals))
    && (a.pendingSeal.Some? && a.pendingSeal.value.tunnelRunning ==> Long(IntervalOf(a.pendingSeal.value)))
  }

  lemma OneMoreIsLongButForTheLast(c: Chapter, next: Interval)
    requires AllLong(c.intervals)
    ensures LongButForTheLast(c.(intervals := c.intervals + [next]))
    ensures Long(next) ==> AllLong(c.intervals + [next])
  {
    assert (c.intervals + [next])[..|c.intervals|] == c.intervals;
  }

  lemma StepKeepsCheckpointInv(w: World, e: Event)
    requires Enabled(w, e) && SessionInv(w) && CheckpointInv(w)
    ensures CheckpointInv(Advance(w, e))
  {
    if Reloads(e) {
      ReloadReadsTheStateFile(w, e);
    } else if !HandlesSession(e) {
      OtherEventsKeepSessions(w, e);
    } else if Finishes(w.queue, e) {
      OneMoreIsLongButForTheLast(w.chapters[e.seal.sessionId], IntervalOf(e.seal));
    } else if e.Observe? {
      ObservingKeepsCheckpointInv(w, e);
    }
  }

  lemma ObservingKeepsCheckpointInv(w: World, e: Event)
    requires Enabled(w, e) && SessionInv(w) && CheckpointInv(w) && e.Observe?
    ensures CheckpointInv(Advance(w, e))
  {
    assert OpensSession(w.queue, e) ==> LongButForTheLast(Chapter(e.now, []));
  }

  // ---------------------------------------------------------------------------
  // Files
  // ---------------------------------------------------------------------------

  /** The name was printed for a report with this identifier. */
  ghost predicate NamedFor(name: string, id: string) {
    exists t: Time, d: string :: ValidScope(d) && IsUuidText(id) && ReportName(t, d, id) == Some(name)
  }

  lemma NameTellsItsReport(name: string, id: string, id': string)
    requires NamedFor(name, id) && NamedFor(name, id')
    ensures id == id'
  {
    var t: Time, d: string :| ValidScope(d) && IsUuidText(id) && ReportName(t, d, id) == Some(name);
    var t': Time, d': string :| ValidScope(d') && IsUuidText(id') && ReportName(t', d', id') == Some(name);
    NamesAreInjective(t, d, ParseUuid(id).value, t', d', ParseUuid(id').value);
  }

  /** The interval belongs to a chapter, or is about to. */
  predicate Known(w: World, i: Interval) {
    || (i.sessionId in w.chapters && i in w.chapters[i.sessionId].intervals)
    || (w.queue.memory.pendingSeal.Some? && IntervalOf(w.queue.memory.pendingSeal.value) == i)
  }

  /** The name prints this time. */
  ghost predicate Prints(name: string, t: Time) {
    exists d: string, id: Uuid :: ValidScope(d) && name == PrintName(t, d, id)
  }

  /** The name of a waiting report prints the report's time: the end of the interval it covers, if it covers one. */
  ghost predicate TimesInv(w: World) {
    forall n :: n in w.queue.pending ==>
      && n in w.times && Prints(n, w.times[n])
      && (w.queue.pending[n].Readable? && w.queue.pending[n].report.interval.Some? ==>
            w.times[n] == w.queue.pending[n].report.interval.value.endedAt)
  }

  ghost predicate AllKnown(w: World, files: map<string, File>) {
    forall n :: n in files && files[n].Readable? && files[n].report.interval.Some? ==>
      Known(w, files[n].report.interval.value)
  }

  ghost predicate OwnersInv(w: World) {
    forall n :: n in w.queue.pending ==> n in w.owner && w.owner[n] in w.used && NamedFor(n, w.owner[n])
  }

  /** A file already written for the pending seal holds the pending seal's interval. */
  ghost predicate OwnFileInv(w: World) {
    var seal := w.queue.memory.pendingSeal;
    seal.Some? ==>
      forall n :: n in w.queue.pending && n in w.owner && w.owner[n] == seal.value.reportId
                  && w.queue.pending[n].Readable? ==>
        w.queue.pending[n].report.interval == Some(IntervalOf(seal.value))
  }

  /** The upload flag is set exactly while a candidate is live, and then just one is. */
  ghost predicate LeasesFit(leases: map<nat, Lease>, candidates: nat, uploading: bool, pending: map<string, File>) {
    && (uploading <==> exists h :: h in leases)
    && (forall h, g :: h in leases && g in leases ==> h == g)
    && (forall h :: h in leases ==> h < candidates)
    && (forall h :: h in leases && leases[h].stage == Waiting ==> leases[h].name in pending)
  }

  ghost predicate LeaseInv(w: World) {
    LeasesFit(w.leases, w.candidates, w.queue.uploading, w.queue.pending)
  }

  lemma OneMoreLease(leases: map<nat, Lease>, candidates: nat, pending: map<string, File>, name: string)
    requires LeasesFit(leases, candidates, false, pending) && name in pending
    ensures LeasesFit(leases[candidates := Lease(name, Waiting)], candidates + 1, true, pending)
  {
    assert candidates in leases[candidates := Lease(name, Waiting)];
  }

  lemma FoundIsWaiting(q: Queue, e: Event)
    requires Finds(q, e)
    ensures !q.uploading && Next(q, e).uploading && Next(q, e).pending == q.pending
    ensures CandidateAnswer(q, e.now, e.latest).value in q.pending
  {
    AnswerIsWaiting(q, e.now, e.latest);
    CandidateStep(q, e.now, e.latest);
    assert e == Candidate(e.now, e.latest);
  }

  lemma CandidateStep(q: Queue, now: Time, latest: bool)
    requires Chooses(q, now, latest)
    ensures var q' := Next(q, Candidate(now, latest));
            q'.pending == q.pending && q'.uploading == CandidateAnswer(q, now, latest).Some?
  {
  }

  lemma AnswerIsWaiting(q: Queue, now: Time, latest: bool)
    requires CandidateAnswer(q, now, latest).Some?
    ensures Chooses(q, now, latest) && CandidateAnswer(q, now, latest).value in q.pending
  {
  }

  lemma FindingKeepsLeaseInv(w: World, e: Event)
    requires Finds(w.queue, e) && LeaseInv(w)
    ensures LeaseInv(Advance(w, e))
  {
    FoundIsWaiting(w.queue, e);
    OneMoreLease(w.leases, w.candidates, w.queue.pending, CandidateAnswer(w.queue, e.now, e.latest).value);
  }

  lemma StepKeepsLeaseInv(w: World, e: Event)
    requires Enabled(w, e) && LeaseInv(w)
    ensures LeaseInv(Advance(w, e))
  {
    if Finds(w.queue, e) {
      FindingKeepsLeaseInv(w, e);
    } else if e.Move? || e.RecordSuccess? || e.Release? || Reloads(e) {
      HolderKeepsLeaseInv(w, e);
    } else {
      OthersKeepLeases(w, e);
      forall h | h in w.leases && w.leases[h].stage == Waiting
        ensures w.leases[h].name in Advance(w, e).queue.pending
      {
        LeavesOnlyByUpload(w, e, w.leases[h].name);
      }
    }
  }

  lemma HolderKeepsLeaseInv(w: World, e: Event)
    requires Enabled(w, e) && LeaseInv(w) && (e.Move? || e.RecordSuccess? || e.Release? || Reloads(e))
    ensures LeaseInv(Advance(w, e))
  {
    if e.Move? || e.RecordSuccess? {
      assert e.holder in Advance(w, e).leases;
    }
  }

  lemma OthersKeepLeases(w: World, e: Event)
    requires Enabled(w, e) && !Finds(w.queue, e) && !(e.Move? || e.RecordSuccess? || e.Release? || Reloads(e))
    ensures Advance(w, e).leases == w.leases && Advance(w, e).candidates == w.candidates
    ensures Advance(w, e).queue.uploading == w.queue.uploading
  {
  }

  /** The report leaves the pending directory by an upload. */
  predicate Uploaded(q: Queue, e: Event, name: string) {
    e.Move? && e.name == name && name in q.pending
  }

  lemma LeavesOnlyByUpload(w: World, e: Event, name: string)
    requires name in w.queue.pending
    ensures name in Advance(w, e).queue.pending || Uploaded(w.queue, e, name)
  {
  }

  /** The written name is a name of the written report. */
  lemma WritesNamedFor(w: World, e: Event)
    requires Enabled(w, e) && SessionInv(w) && IdentifierInv(w) && Writes(w.queue, e).Some?
    ensures var (n, id) := Writes(w.queue, e).value;
            && NamedFor(n, id)
            && (if e.QueueIntent? then id in Drawn(e) else id in w.used && w.queue.memory.pendingSeal == Some(e.seal))
  {
    var (n, id) := Writes(w.queue, e).value;
    if e.QueueIntent? {
      assert ReportName(e.at, w.queue.memory.currentDevice.value, id) == Some(n);
    } else {
      assert ReportName(e.seal.endedAt, e.seal.deviceId, id) == Some(n);
    }
  }

  /** Files are only added by the write of the event, and keep their content unless damaged. */
  lemma PendingAfter(w: World, e: Event, n: string)
    requires n in Advance(w, e).queue.pending
    ensures n in w.queue.pending || (Writes(w.queue, e).Some? && Writes(w.queue, e).value.0 == n)
    ensures var f := Advance(w, e).queue.pending[n];
            if n in w.queue.pending then f == (if e == Damage(n) then Unreadable else w.queue.pending[n])
            else (e.Materialize? || e.MaterializeInterrupted? || e.QueueIntent?) && f == Readable(e.report)
  {
  }

  /** A report is written under a name that prints its time. */
  lemma WrittenNamePrintsTime(w: World, e: Event)
    requires Enabled(w, e) && Writes(w.queue, e).Some?
    ensures Prints(Writes(w.queue, e).value.0, TimeOf(e))
    ensures e.report.interval.Some? ==> TimeOf(e) == e.report.interval.value.endedAt
  {
    var (n, id) := Writes(w.queue, e).value;
    if e.QueueIntent? {
      assert n == PrintName(e.at, w.queue.memory.currentDevice.value, ParseUuid(id).value);
    } else {
      assert n == PrintName(e.seal.endedAt, e.seal.deviceId, ParseUuid(id).value);
    }
  }

  lemma StepKeepsTimesInv(w: World, e: Event)
    requires Enabled(w, e) && TimesInv(w)
    ensures TimesInv(Advance(w, e))
  {
    var w' := Advance(w, e);
    forall n | n in w'.queue.pending
      ensures n in w'.times && Prints(n, w'.times[n])
      ensures w'.queue.pending[n].Readable? && w'.queue.pending[n].report.interval.Some? ==>
                w'.times[n] == w'.queue.pending[n].report.interval.value.endedAt
    {
      PendingAfter(w, e, n);
      if n !in w.queue.pending {
        WrittenNamePrintsTime(w, e);
      }
    }
  }

  lemma StepKeepsOwnersInv(w: World, e: Event)
    requires Enabled(w, e) && SessionInv(w) && IdentifierInv(w) && OwnersInv(w)
    ensures OwnersInv(Advance(w, e))
  {
    var w' := Advance(w, e);
    forall n | n in w'.queue.pending
      ensures n in w'.owner && w'.owner[n] in w'.used && NamedFor(n, w'.owner[n])
    {
      PendingAfter(w, e, n);
      if Writes(w.queue, e).Some? {
        WritesNamedFor(w, e);
      }
    }
  }

  /** The same seal, but for the identity it was given. */
  predicate SameSeal(a: Seal, b: Seal) {
    a.(identity := b.identity, captureIdentity := b.captureIdentity) == b
  }

  /** The pending seal after an event: gone, the same as before, or newly drawn. */
  lemma SealAfter(w: World, e: Event)
    requires SessionInv(w)
    ensures var seal, seal' := w.queue.memory.pendingSeal, Advance(w, e).queue.memory.pendingSeal;
            seal'.Some? ==>
              if seal.Some? then SameSeal(seal'.value, seal.value)
              else
                && e.Observe? && seal'.value.reportId == e.newReportId
                && (seal'.value.tunnelRunning <==> e.connection == Some(seal'.value.connectionId))
    ensures var seal, seal' := w.queue.memory.pendingSeal, Advance(w, e).queue.memory.pendingSeal;
            seal.Some? && seal'.None? ==> Finishes(w.queue, e) && e.seal == seal.value
  {
    if Reloads(e) {
      ReloadReadsTheStateFile(w, e);
    } else if !HandlesSession(e) {
      OtherEventsKeepSessions(w, e);
    }
  }

  lemma WrittenIsItsOwner(w: World, e: Event, n: string)
    requires Enabled(w, e) && SessionInv(w) && IdentifierInv(w) && n in w.owner && NamedFor(n, w.owner[n])
    requires Writes(w.queue, e).Some? && Writes(w.queue, e).value.0 == n
    ensures w.owner[n] == Writes(w.queue, e).value.1
  {
    WritesNamedFor(w, e);
    NameTellsItsReport(n, w.owner[n], Writes(w.queue, e).value.1);
  }

  /** A file that was there before keeps its owner. */
  lemma OwnFileWasThere(w: World, e: Event, n: string)
    requires Enabled(w, e) && SessionInv(w) && IdentifierInv(w) && OwnersInv(w) && n in w.queue.pending
    ensures n in Owners(w, e) && Owners(w, e)[n] == w.owner[n]
  {
    if Writes(w.queue, e).Some? && Writes(w.queue, e).value.0 == n {
      WrittenIsItsOwner(w, e, n);
    }
  }

  lemma OwnFileAfter(w: World, e: Event, n: string)
    requires Enabled(w, e) && SessionInv(w) && IdentifierInv(w) && OwnersInv(w) && OwnFileInv(w)
    requires var w' := Advance(w, e);
             && w'.queue.memory.pendingSeal.Some? && n in w'.queue.pending && w'.queue.pending[n].Readable?
             && n in w'.owner && w'.owner[n] == w'.queue.memory.pendingSeal.value.reportId
    ensures Advance(w, e).queue.pending[n].report.interval ==
              Some(IntervalOf(Advance(w, e).queue.memory.pendingSeal.value))
  {
    SealAfter(w, e);
    PendingAfter(w, e, n);
    if n in w.queue.pending {
      OwnFileWasThere(w, e, n);
    } else {
      WritesNamedFor(w, e);
    }
  }

  lemma StepKeepsOwnFileInv(w: World, e: Event)
    requires Enabled(w, e) && SessionInv(w) && IdentifierInv(w) && OwnersInv(w) && OwnFileInv(w)
    ensures OwnFileInv(Advance(w, e))
  {
    var w' := Advance(w, e);
    if w'.queue.memory.pendingSeal.Some? {
      forall n | n in w'.queue.pending && n in w'.owner
                 && w'.owner[n] == w'.queue.memory.pendingSeal.value.reportId && w'.queue.pending[n].Readable?
        ensures w'.queue.pending[n].report.interval == Some(IntervalOf(w'.queue.memory.pendingSeal.value))
      {
        OwnFileAfter(w, e, n);
      }
    }
  }

  lemma KnownStaysKnown(w: World, e: Event, i: Interval)
    requires Enabled(w, e) && SessionInv(w) && Known(w, i)
    ensures Known(Advance(w, e), i)
  {
    SealAfter(w, e);
    var w' := Advance(w, e);
    if i.sessionId in w.chapters && i in w.chapters[i.sessionId].intervals {
      assert i.sessionId in w'.chapters && w.chapters[i.sessionId].intervals <= w'.chapters[i.sessionId].intervals by {
        assert OpensSession(w.queue, e) ==> e.sessionId !in w.chapters;
      }
    }
  }

  lemma SentAfter(w: World, e: Event, n: string)
    requires n in Advance(w, e).queue.sent
    ensures var f := Advance(w, e).queue.sent[n];
            (n in w.queue.sent && f == w.queue.sent[n]) || (n in w.queue.pending && f == w.queue.pending[n])
  {
  }

  lemma StepKeepsFilesKnown(w: World, e: Event)
    requires Enabled(w, e) && SessionInv(w) && IdentifierInv(w)
    requires AllKnown(w, w.queue.pending) && AllKnown(w, w.queue.sent)
    ensures AllKnown(Advance(w, e), Advance(w, e).queue.pending) && AllKnown(Advance(w, e), Advance(w, e).queue.sent)
  {
    var w' := Advance(w, e);
    forall n | n in w'.queue.pending && w'.queue.pending[n].Readable? && w'.queue.pending[n].report.interval.Some?
      ensures Known(w', w'.queue.pending[n].report.interval.value)
    {
      PendingAfter(w, e, n);
      if n !in w.queue.pending {
        WritesNamedFor(w, e);
      }
      KnownStaysKnown(w, e, w'.queue.pending[n].report.interval.value);
    }
    forall n | n in w'.queue.sent && w'.queue.sent[n].Readable? && w'.queue.sent[n].report.interval.Some?
      ensures Known(w', w'.queue.sent[n].report.interval.value)
    {
      SentAfter(w, e, n);
      KnownStaysKnown(w, e, w'.queue.sent[n].report.interval.value);
    }
  }

  // ---------------------------------------------------------------------------
  // Whole runs
  // ---------------------------------------------------------------------------

  ghost predicate Inv(w: World) {
    && SessionInv(w) && IdentifierInv(w) && CheckpointInv(w) && LeaseInv(w) && OwnersInv(w) && OwnFileInv(w)
    && TimesInv(w)
    && AllKnown(w, w.queue.pending) && AllKnown(w, w.queue.sent)
  }

  lemma {:induction false} RunKeepsInvariant(ws: seq<World>, es: seq<Event>, i: nat)
    requires IsRun(ws, es) && i < |ws|
    ensures Inv(ws[i])
  {
    if i > 0 {
      var w, e := ws[i - 1], es[i - 1];
      RunKeepsInvariant(ws, es, i - 1);
      StepKeepsSessionInv(w, e);
      StepKeepsIdentifierInv(w, e);
      StepKeepsCheckpointInv(w, e);
      StepKeepsLeaseInv(w, e);
      StepKeepsOwnersInv(w, e);
      StepKeepsOwnFileInv(w, e);
      StepKeepsTimesInv(w, e);
      StepKeepsFilesKnown(w, e);
    }
  }
}
