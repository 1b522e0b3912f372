/**
 The desktop's automatic diagnostics: a session is cut into intervals, each interval becomes a
 report file, and the files are uploaded one at a time. The state file and the two directories
 survive the process; the memory copy of the state and the upload flag do not.
 */
module DiagnosticsQueue {
  import opened FixedWidth
  import opened Wrappers
  import opened ReportNames
  import opened RetryRotation

  const CHECKPOINT_SECONDS := 6 * 60 * 60
  const SUCCESS_UPLOAD_SPACING_SECONDS := 65
  const MAX_SENT_REPORTS := 3

  function NextSequence(sequence: nat): nat {
    if sequence >= U64_MAX then U64_MAX else sequence + 1
  }

  /** `currentProcess` is not saved: it tells the process that opened the session from later ones. */
  datatype Session = Session(currentProcess: bool, connectionId: string, sessionId: string,
                             deviceId: string, sequence: nat, intervalStartedAt: Time)

  /** `captureIdentity` is not saved either. */
  datatype Seal = Seal(identity: string, captureIdentity: bool, reportId: string, trigger: string,
                       sessionId: string, deviceId: string, sequence: nat, startedAt: Time, endedAt: Time,
                       tunnelRunning: bool, connectionId: string)

  datatype Automatic = Automatic(currentDevice: Option<string>, session: Option<Session>, pendingSeal: Option<Seal>,
                                 retryAttempt: nat, nextUploadAt: Time, lastAttempted: Option<string>)

  const DEFAULT := Automatic(None, None, None, 0, 0, None)

  /** The part of a session a report covers. */
  datatype Interval = Interval(sessionId: string, sequence: nat, startedAt: Time, endedAt: Time)

  /** A report of a session carries its interval; a report of a connection intent carries none. */
  datatype Report = Report(reportId: Option<string>, interval: Option<Interval>)

  datatype File = Readable(report: Report) | Unreadable

  datatype Queue = Queue(memory: Automatic, saved: Automatic, pending: map<string, File>, sent: map<string, File>,
                         uploading: bool)

  // ---------------------------------------------------------------------------
  // Sessions and seals
  // ---------------------------------------------------------------------------

  /** What of the state reaches the state file. */
  function Stripped(a: Automatic): Automatic {
    a.(session := if a.session.Some? then Some(a.session.value.(currentProcess := false)) else None,
       pendingSeal := if a.pendingSeal.Some? then Some(a.pendingSeal.value.(captureIdentity := false)) else None)
  }

  function Save(q: Queue, memory: Automatic): Queue {
    q.(memory := memory, saved := Stripped(memory))
  }

  function SealOf(session: Session, reportId: string, trigger: string, tunnelRunning: bool, now: Time): Seal {
    Seal("", session.currentProcess, reportId, trigger, session.sessionId, session.deviceId,
         NextSequence(session.sequence), session.intervalStartedAt,
         if now < session.intervalStartedAt then session.intervalStartedAt else now,
         tunnelRunning, session.connectionId)
  }

  function IntervalOf(seal: Seal): Interval {
    Interval(seal.sessionId, seal.sequence, seal.startedAt, seal.endedAt)
  }

  /** Why an observation closes the running interval, if it does: the trigger, and whether the tunnel runs on. */
  function Closes(session: Session, connection: Option<string>, mayBeRunning: bool, now: Time): Option<(string, bool)> {
    if connection.Some? && session.connectionId != connection.value then Some(("tunnel_stopped", false))
    else if connection.None? && !mayBeRunning then Some(("tunnel_stopped", false))
    else if connection.Some? && Clamped(now - session.intervalStartedAt) >= CHECKPOINT_SECONDS
    then Some(("six_hour_checkpoint", true))
    else None
  }

  function Observed(a: Automatic, connection: Option<string>, mayBeRunning: bool, now: Time,
                    sessionId: string, reportId: string): Automatic
  {
    if a.pendingSeal.Some? then a
    else if a.session.None? then
      if connection.None? || a.currentDevice.None? then a
      else a.(session := Some(Session(true, connection.value, sessionId, a.currentDevice.value, 0, now)))
    else
      match Closes(a.session.value, connection, mayBeRunning, now)
      case None => a
      case Some((trigger, runs)) => a.(pendingSeal := Some(SealOf(a.session.value, reportId, trigger, runs, now)))
  }

  function Frozen(a: Automatic, seal: Seal, identity: string): Automatic {
    if a.pendingSeal.None? || a.pendingSeal.value.reportId != seal.reportId then a
    else if !a.pendingSeal.value.captureIdentity then a
    else a.(pendingSeal := Some(a.pendingSeal.value.(identity := identity, captureIdentity := false)))
  }

  datatype Materialized = WrongReport | Stale | BadName | NotWritten | NoSession | Done

  function SealName(seal: Seal): Option<string> {
    ReportName(seal.endedAt, seal.deviceId, seal.reportId)
  }

  function MaterializeAnswer(q: Queue, seal: Seal, report: Report, writable: bool): Materialized {
    if report.reportId != Some(seal.reportId) then WrongReport
    else if q.memory.pendingSeal != Some(seal) then Stale
    else if SealName(seal).None? then BadName
    else if SealName(seal).value !in q.pending && !writable then NotWritten
    else if seal.tunnelRunning && q.memory.session.None? then NoSession
    else Done
  }

  /** The files once the report is written; one that is already there is left alone. */
  function Written(pending: map<string, File>, name: string, report: Report): map<string, File> {
    if name in pending then pending else pending[name := Readable(report)]
  }

  function Sealed(a: Automatic, seal: Seal): Automatic {
    a.(session := if seal.tunnelRunning && a.session.Some?
                  then Some(a.session.value.(sequence := seal.sequence, intervalStartedAt := seal.endedAt)) else None,
       pendingSeal := None)
  }

  // ---------------------------------------------------------------------------
  // Uploads
  // ---------------------------------------------------------------------------

  function ReportsFor(pending: map<string, File>, deviceId: string): set<string> {
    set name | name in pending && ReportScope(name) == Some(deviceId)
  }

  /** The reports an upload may choose from, in order. */
  function Choices(q: Queue): seq<string> {
    if q.memory.currentDevice.None? then []
    else SortedNames(ReportsFor(q.pending, q.memory.currentDevice.value))
  }

  /** Whether a request for a candidate gets as far as choosing one. */
  predicate Chooses(q: Queue, now: Time, latest: bool) {
    && !q.uploading
    && (latest || now >= q.memory.nextUploadAt)
    && q.memory.currentDevice.Some?
  }

  function Chosen(q: Queue, latest: bool): Option<string> {
    var reports := Choices(q);
    if latest then if reports == [] then None else Some(reports[|reports| - 1])
    else NextReportName(reports, q.memory.lastAttempted)
  }

  function Attempted(a: Automatic, name: Option<string>): Automatic {
    if name.None? then a.(retryAttempt := 0, nextUploadAt := 0, lastAttempted := None)
    else a.(lastAttempted := name)
  }

  function CandidateAnswer(q: Queue, now: Time, latest: bool): Option<string> {
    if !Chooses(q, now, latest) then None
    else
      var name := Chosen(q, latest);
      if name.Some? && name.value in q.pending && q.pending[name.value].Readable? then name else None
  }

  function RetryDelay(attempt: nat): int {
    if attempt == 0 then 5 * 60 else if attempt == 1 then 30 * 60 else if attempt == 2 then 2 * 60 * 60 else 6 * 60 * 60
  }

  function Failed(a: Automatic, now: Time): Automatic {
    a.(retryAttempt := if a.retryAttempt < 4 then a.retryAttempt + 1 else 4,
       nextUploadAt := Clamped(now + RetryDelay(a.retryAttempt)))
  }

  predicate IsJson(name: string) {
    |name| > |SUFFIX| && name[|name| - |SUFFIX|..] == SUFFIX
  }

  function Greater(names: set<string>, name: string): set<string> {
    set n | n in names && IsJson(n) && Less(name, n)
  }

  /** Pruning keeps a sent report exactly when fewer than three have a greater name. */
  predicate SurvivesPruning(names: set<string>, name: string) {
    !IsJson(name) || |Greater(names, name)| < MAX_SENT_REPORTS
  }

  function Pruned(sent: map<string, File>): map<string, File> {
    map name | name in sent && SurvivesPruning(sent.Keys, name) :: sent[name]
  }

  /** The report has left for the other directory; the state does not know it yet. */
  function Moved(q: Queue, name: string): Queue
    requires name in q.pending
  {
    q.(pending := q.pending - {name}, sent := q.sent[name := q.pending[name]])
  }

  function Recorded(a: Automatic, morePending: bool, now: Time): Automatic {
    a.(retryAttempt := 0, nextUploadAt := if morePending then Clamped(now + SUCCESS_UPLOAD_SPACING_SECONDS) else 0)
  }

  /** A new process: the state file is read back, and the sent reports are pruned. */
  function Restarted(q: Queue): Queue {
    q.(memory := q.saved, uploading := false, sent := Pruned(q.sent))
  }

  // ---------------------------------------------------------------------------
  // Events
  // ---------------------------------------------------------------------------

  datatype Event =
    | SetDevice(deviceId: string)
    | ClearDevice
    | Observe(connection: Option<string>, mayBeRunning: bool, now: Time, sessionId: string, newReportId: string)
    | Freeze(seal: Seal, identity: string)
    | Materialize(seal: Seal, report: Report, writable: bool)
    /** The process ends after the report file is written and before the state is saved. */
    | MaterializeInterrupted(seal: Seal, report: Report)
    | QueueIntent(report: Report, at: Time, writable: bool)
    | Candidate(now: Time, latest: bool)
    /** A success is a move of the file, a save of the state and a pruning; only the save holds the lock. */
    | Move(holder: nat, name: string)
    | RecordSuccess(holder: nat, now: Time)
    | Prune
    | Fail(now: Time)
    | Release(holder: nat)
    | Restart
    /** A report file becomes unreadable. */
    | Damage(name: string)

  function IntentName(q: Queue, report: Report, at: Time): Option<string> {
    if report.reportId.None? || q.memory.currentDevice.None? then None
    else ReportName(at, q.memory.currentDevice.value, report.reportId.value)
  }

  datatype IntentAnswer = NoReportId | BadReportId | NoDevice | BadDevice | WriteFailed | Queued

  function IntentAnswerOf(q: Queue, report: Report, at: Time, writable: bool): IntentAnswer {
    if report.reportId.None? then NoReportId
    else if ParseUuid(report.reportId.value).None? then BadReportId
    else if q.memory.currentDevice.None? then NoDevice
    else if IntentName(q, report, at).None? then BadDevice
    else if IntentName(q, report, at).value !in q.pending && !writable then WriteFailed
    else Queued
  }

  function Next(q: Queue, e: Event): Queue {
    var a := q.memory;
    match e
    case SetDevice(deviceId) => if ValidScope(deviceId) then Save(q, a.(currentDevice := Some(deviceId))) else q
    case ClearDevice => Save(q, a.(currentDevice := None))
    case Observe(connection, mayBeRunning, now, sessionId, newReportId) =>
      Save(q, Observed(a, connection, mayBeRunning, now, sessionId, newReportId))
    case Freeze(seal, identity) => Save(q, Frozen(a, seal, identity))
    case Materialize(seal, report, writable) =>
      var answer := MaterializeAnswer(q, seal, report, writable);
      if answer == Done
      then Save(q.(pending := Written(q.pending, SealName(seal).value, report)), Sealed(a, seal))
      else if answer == NoSession then q.(pending := Written(q.pending, SealName(seal).value, report))
      else q
    case MaterializeInterrupted(seal, report) =>
      var answer := MaterializeAnswer(q, seal, report, true);
      Restarted(if answer == Done || answer == NoSession
                then q.(pending := Written(q.pending, SealName(seal).value, report)) else q)
    case QueueIntent(report, at, writable) =>
      var name := IntentName(q, report, at);
      if name.Some? && writable then q.(pending := Written(q.pending, name.value, report)) else q
    case Candidate(now, latest) =>
      if Chooses(q, now, latest)
      then Save(q.(uploading := CandidateAnswer(q, now, latest).Some?), Attempted(a, Chosen(q, latest))) else q
    case Move(_, name) => if name in q.pending then Moved(q, name) else q
    case RecordSuccess(_, now) => Save(q, Recorded(a, Choices(q) != [], now))
    case Prune => q.(sent := Pruned(q.sent))
    case Fail(now) => Save(q, Failed(a, now))
    case Release(_) => q.(uploading := false)
    case Restart => Restarted(q)
    case Damage(name) => if name in q.pending then q.(pending := q.pending[name := Unreadable]) else q
  }
}
