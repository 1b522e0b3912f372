/**
 The diagnostics queue as the object whose methods update the state under its lock, write the
 state file, and add, move and remove report files. A method that takes the lock once is one
 `DiagnosticsQueue.Event`; recording a success is three.
 */
module AutomaticDiagnostics {
  import opened FixedWidth
  import opened Wrappers
  import opened ReportNames
  import opened RetryRotation
  import opened DiagnosticsQueue
  import opened UploadOrder

  datatype Observation = Observation(sealPending: bool, intervalStarted: Option<(string, Time)>)

  datatype UploadCandidate = NoCandidate | Found(name: string, report: Report) | CannotRead

  class DesktopAutomaticDiagnostics {
    var state: Automatic
    var stateFile: Automatic
    var pending: map<string, File>
    var sent: map<string, File>
    var uploadInProgress: bool

    function View(): Queue
      reads this
    {
      Queue(state, stateFile, pending, sent, uploadInProgress)
    }

    /** The state file holds what the memory holds, but for what is never saved. */
    predicate Valid()
      reads this
    {
      stateFile == Stripped(state)
    }

    /** Opening the queue reads the state file and prunes the uploaded reports. */
    constructor (saved: Automatic, pending: map<string, File>, sent: map<string, File>)
      requires saved == Stripped(saved)
      ensures Valid()
      ensures View() == Queue(saved, saved, pending, Pruned(sent), false)
    {
      this.state, this.stateFile := saved, saved;
      this.pending, this.sent := pending, sent;
      this.uploadInProgress := false;
      new;
      PruneSent();
    }

    method SaveState()
      modifies this`stateFile
      ensures Valid()
    {
      stateFile := Stripped(state);
    }

    method SetCurrentDevice(deviceId: string) returns (ok: bool)
      requires Valid()
      modifies this
      ensures Valid() && View() == Next(old(View()), SetDevice(deviceId))
      ensures ok == ValidScope(deviceId)
    {
      if !ValidScope(deviceId) {
        return false;
      }
      if state.currentDevice != Some(deviceId) {
        state := state.(currentDevice := Some(deviceId));
        SaveState();
      }
      ok := true;
    }

    method ClearCurrentDevice()
      requires Valid()
      modifies this
      ensures Valid() && View() == Next(old(View()), ClearDevice)
    {
      if state.currentDevice.Some? {
        state := state.(currentDevice := None);
        SaveState();
      }
    }

    /** `sessionId` and `reportId` are the fresh identifiers the call may draw. */
    method ObserveTunnel(connection: Option<string>, mayBeRunning: bool, now: Time, sessionId: string, reportId: string)
      returns (observation: Observation)
      requires Valid()
      modifies this
      ensures Valid() && View() == Next(old(View()), Observe(connection, mayBeRunning, now, sessionId, reportId))
      ensures observation.sealPending <==> state.pendingSeal.Some?
      ensures observation.intervalStarted ==
                if old(state.session).None? && state.session.Some? then Some((sessionId, now)) else None
    {
      if state.pendingSeal.Some? {
        return Observation(true, None);
      }
      if state.session.None? {
        if connection.None? || state.currentDevice.None? {
          return Observation(false, None);
        }
        state := state.(session := Some(Session(true, connection.value, sessionId, state.currentDevice.value, 0, now)));
        SaveState();
        return Observation(false, Some((sessionId, now)));
      }
      var session := state.session.value;
      if connection.Some? && session.connectionId != connection.value {
        state := state.(pendingSeal := Some(SealOf(session, reportId, "tunnel_stopped", false, now)));
      } else if connection.None? && !mayBeRunning {
        state := state.(pendingSeal := Some(SealOf(session, reportId, "tunnel_stopped", false, now)));
      } else if connection.Some? && Clamped(now - session.intervalStartedAt) >= CHECKPOINT_SECONDS {
        state := state.(pendingSeal := Some(SealOf(session, reportId, "six_hour_checkpoint", true, now)));
      } else {
        return Observation(false, None);
      }
      SaveState();
      observation := Observation(true, None);
    }

    method FreezeIdentity(seal: Seal, identity: string) returns (frozen: Option<Seal>)
      requires Valid()
      modifies this
      ensures Valid() && View() == Next(old(View()), Freeze(seal, identity))
      ensures frozen == if state.pendingSeal.Some? && state.pendingSeal.value.reportId == seal.reportId
                        then state.pendingSeal else None
    {
      if state.pendingSeal.None? || state.pendingSeal.value.reportId != seal.reportId {
        return None;
      }
      if state.pendingSeal.value.captureIdentity {
        state := state.(pendingSeal := Some(state.pendingSeal.value.(identity := identity, captureIdentity := false)));
      }
      SaveState();
      frozen := state.pendingSeal;
    }

    method MaterializeSeal(seal: Seal, report: Report, writable: bool) returns (answer: Materialized)
      requires Valid()
      modifies this
      ensures Valid() && View() == Next(old(View()), Materialize(seal, report, writable))
      ensures answer == MaterializeAnswer(old(View()), seal, report, writable)
    {
      if report.reportId != Some(seal.reportId) {
        return WrongReport;
      }
      if state.pendingSeal != Some(seal) {
        return Stale;
      }
      var name := SealName(seal);
      if name.None? {
        return BadName;
      }
      if name.value !in pending {
        if !writable {
          return NotWritten;
        }
        pending := pending[name.value := Readable(report)];
      }
      var closed := CloseSeal(seal);
      answer := if closed then Done else NoSession;
    }

    method CloseSeal(seal: Seal) returns (closed: bool)
      requires Valid()
      modifies this`state, this`stateFile
      ensures Valid()
      ensures closed <==> !seal.tunnelRunning || old(state.session).Some?
      ensures state == if closed then Sealed(old(state), seal) else old(state)
    {
      if seal.tunnelRunning {
        if state.session.None? {
          return false;
        }
        var session := state.session.value;
        state := state.(session := Some(session.(sequence := seal.sequence, intervalStartedAt := seal.endedAt)));
      } else {
        state := state.(session := None);
      }
      state := state.(pendingSeal := None);
      SaveState();
      closed := true;
    }

    method QueueConnectionIntentReport(report: Report, at: Time, writable: bool) returns (answer: IntentAnswer)
      requires Valid()
      modifies this
      ensures Valid() && View() == Next(old(View()), QueueIntent(report, at, writable))
      ensures answer == IntentAnswerOf(old(View()), report, at, writable)
      ensures answer == Queued ==> IntentName(old(View()), report, at).value in pending
    {
      if report.reportId.None? {
        return NoReportId;
      }
      var id := ParseUuid(report.reportId.value);
      if id.None? {
        return BadReportId;
      }
      if state.currentDevice.None? {
        return NoDevice;
      }
      var deviceId := state.currentDevice.value;
      if !ValidScope(deviceId) {
        return BadDevice;
      }
      var name := PrintName(at, deviceId, id.value);
      if name !in pending {
        if !writable {
          return WriteFailed;
        }
        pending := pending[name := Readable(report)];
      }
      answer := Queued;
    }

    method ChooseName(latest: bool) returns (name: Option<string>)
      ensures name == Chosen(View(), latest)
      ensures name.Some? ==> name.value in pending
    {
      var reports := Choices(View());
      name := None;
      if !latest {
        name := NextReportName(reports, state.lastAttempted);
      } else if reports != [] {
        name := Some(reports[|reports| - 1]);
      }
      assert name.Some? ==> name.value in reports;
    }

    method RememberAttempt(name: Option<string>)
      modifies this`state, this`stateFile
      ensures Valid() && state == Attempted(old(state), name)
    {
      if name.None? {
        state := state.(retryAttempt := 0, nextUploadAt := 0, lastAttempted := None);
      } else {
        state := state.(lastAttempted := name);
      }
      SaveState();
    }

    method BeginUploadCandidate(now: Time, latest: bool) returns (candidate: UploadCandidate)
      requires Valid()
      modifies this
      ensures Valid() && View() == Next(old(View()), Candidate(now, latest))
      ensures candidate.Found? <==> CandidateAnswer(old(View()), now, latest).Some?
      ensures candidate.NoCandidate? <==> !Chooses(old(View()), now, latest) || Chosen(old(View()), latest).None?
      ensures candidate.Found? ==>
                candidate.name in pending && pending[candidate.name] == Readable(candidate.report)
                && CandidateAnswer(old(View()), now, latest) == Some(candidate.name)
    {
      if uploadInProgress {
        return NoCandidate;
      }
      if !latest && now < state.nextUploadAt {
        return NoCandidate;
      }
      if state.currentDevice.None? {
        return NoCandidate;
      }
      var name := ChooseName(latest);
      RememberAttempt(name);
      if name.None? {
        return NoCandidate;
      }
      match pending[name.value]
      case Unreadable => candidate := CannotRead;
      case Readable(report) =>
        uploadInProgress := true;
        candidate := Found(name.value, report);
    }

    method ReleaseCandidate(ghost holder: nat)
      requires Valid()
      modifies this
      ensures Valid() && View() == Next(old(View()), Release(holder))
    {
      uploadInProgress := false;
    }

    method MoveToSent(ghost holder: nat, name: string) returns (ok: bool)
      requires Valid()
      modifies this
      ensures Valid() && View() == Next(old(View()), Move(holder, name))
      ensures ok == (name in old(pending))
    {
      if name !in pending {
        return false;
      }
      sent := sent[name := pending[name]];
      pending := pending - {name};
      ok := true;
    }

    method RecordUpload(ghost holder: nat, now: Time)
      requires Valid()
      modifies this
      ensures Valid() && View() == Next(old(View()), RecordSuccess(holder, now))
    {
      var morePending := Choices(View()) != [];
      state := state.(retryAttempt := 0,
                      nextUploadAt := if morePending then Clamped(now + SUCCESS_UPLOAD_SPACING_SECONDS) else 0);
      SaveState();
    }

    /** Without anything in between, the three events in a row, or none when the report is not waiting. */
    method UploadSucceeded(ghost holder: nat, name: string, now: Time) returns (ok: bool)
      requires Valid()
      modifies this
      ensures Valid() && ok == (name in old(pending))
      ensures View() == if ok
                        then Next(Next(Next(old(View()), Move(holder, name)), RecordSuccess(holder, now)), Prune)
                        else old(View())
    {
      ok := MoveToSent(holder, name);
      if ok {
        RecordUpload(holder, now);
        PruneSent();
      }
    }

    method UploadFailed(now: Time) returns (delay: int)
      requires Valid()
      modifies this
      ensures Valid() && View() == Next(old(View()), Fail(now))
      ensures delay == RetryDelay(old(state.retryAttempt))
    {
      delay := RetryDelay(state.retryAttempt);
      state := state.(retryAttempt := if state.retryAttempt < 4 then state.retryAttempt + 1 else 4,
                      nextUploadAt := Clamped(now + delay));
      SaveState();
    }

    /** Removes the first of the sorted names one by one, until three are left. */
    method PruneSent()
      modifies this`sent
      ensures sent == Pruned(old(sent))
    {
      var reports := SortedNames(JsonNames(sent.Keys));
      var removeCount := Excess(|reports|);
      var i := 0;
      while i < removeCount
        invariant 0 <= i <= removeCount
        invariant sent == old(sent) - Elements(reports[..i])
      {
        sent := sent - {reports[i]};
        ElementsOneMore(reports, i);
        i := i + 1;
      }
      PrunedIsTheRest(old(sent), reports);
    }
  }

  lemma PrunedIsTheRest(sent: map<string, File>, reports: seq<string>)
    requires reports == SortedNames(JsonNames(sent.Keys))
    ensures sent - Elements(reports[..Excess(|reports|)]) == Pruned(sent)
  {
    assert Elements(reports) == JsonNames(sent.Keys);
    forall n | n in sent
      ensures SurvivesPruning(sent.Keys, n) <==> n !in reports[..Excess(|reports|)]
    {
      PruningDropsTheFirst(sent.Keys, reports, n);
    }
  }
}
