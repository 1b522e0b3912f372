/** What becomes of sessions, seals and their reports, over every run of the queue. */
module SessionHistory {
  import opened FixedWidth
  import opened Wrappers
  import opened ReportNames
  import opened DiagnosticsQueue
  import opened DiagnosticsHistory

  /**
   The reports of every session are numbered from one and their intervals tile the time since it
   was opened, all but the last six hours long or more; every report on disk that covers an interval
   covers one of these, or the one about to be recorded.
   */
  lemma SessionsAreTiled(ws: seq<World>, es: seq<Event>, i: nat)
    requires IsRun(ws, es) && i < |ws|
    ensures forall s :: s in ws[i].chapters ==> Tiles(s, ws[i].chapters[s]) && LongButForTheLast(ws[i].chapters[s])
    ensures AllKnown(ws[i], ws[i].queue.pending) && AllKnown(ws[i], ws[i].queue.sent)
  {
    RunKeepsInvariant(ws, es, i);
  }

  // ---------------------------------------------------------------------------
  // Each interval is reported under one name
  // ---------------------------------------------------------------------------

  /** The file, waiting or uploaded, can be read and covers the interval. */
  predicate Covers(q: Queue, n: string, i: Interval) {
    || (n in q.pending && q.pending[n].Readable? && q.pending[n].report.interval == Some(i))
    || (n in q.sent && q.sent[n].Readable? && q.sent[n].report.interval == Some(i))
  }

  /** The intervals have the same place in the same session; past the largest number places are not told apart. */
  predicate SamePlace(sessionId: string, sequence: nat, i: Interval) {
    i.sessionId == sessionId && i.sequence == sequence < U64_MAX
  }

  ghost predicate OneName(w: World) {
    && (forall n, n', i, i' ::
          Covers(w.queue, n, i) && Covers(w.queue, n', i') && SamePlace(i.sessionId, i.sequence, i') ==> n == n')
    && SealNamesItsFiles(w)
  }

  /** A file at the place of the pending seal has the seal's name. */
  ghost predicate SealNamesItsFiles(w: World) {
    var seal := w.queue.memory.pendingSeal;
    seal.Some? ==>
      forall n, i :: Covers(w.queue, n, i) && SamePlace(seal.value.sessionId, seal.value.sequence, i) ==>
        SealName(seal.value) == Some(n)
  }

  /** The event writes the report of the pending seal to this file. */
  predicate WritesSeal(q: Queue, e: Event, n: string, i: Interval) {
    && q.memory.pendingSeal.Some? && SealName(q.memory.pendingSeal.value) == Some(n)
    && i == IntervalOf(q.memory.pendingSeal.value) && (e.Materialize? || e.MaterializeInterrupted?)
  }

  lemma CoversAfter(w: World, e: Event, n: string, i: Interval)
    requires Enabled(w, e) && Covers(Advance(w, e).queue, n, i)
    ensures Covers(w.queue, n, i) || WritesSeal(w.queue, e, n, i)
  {
    if n in Advance(w, e).queue.pending {
      PendingAfter(w, e, n);
    }
    if n in Advance(w, e).queue.sent {
      SentAfter(w, e, n);
    }
  }

  /** No file is at the place of an interval that is only now sealed. */
  lemma NewPlaceIsFree(w: World, seal: Seal, n: string, i: Interval)
    requires SessionInv(w) && AllKnown(w, w.queue.pending) && AllKnown(w, w.queue.sent)
    requires w.queue.memory.pendingSeal.None?
    requires w.queue.memory.session.Some? && SealFits(w.queue.memory.session.value, seal)
    requires Covers(w.queue, n, i)
    ensures !SamePlace(seal.sessionId, seal.sequence, i)
  {
    assert Known(w, i);
    var c := w.chapters[i.sessionId];
    var x :| 0 <= x < |c.intervals| && c.intervals[x] == i;
    assert TilesAt(i.sessionId, c, x);
  }

  lemma DrawnSealFits(w: World, e: Event)
    requires Enabled(w, e) && SessionInv(w)
    requires w.queue.memory.pendingSeal.None? && Advance(w, e).queue.memory.pendingSeal.Some?
    ensures e.Observe? && w.queue.memory.session.Some?
    ensures SealFits(w.queue.memory.session.value, Advance(w, e).queue.memory.pendingSeal.value)
  {
    SealAfter(w, e);
  }

  lemma SealNamesAfter(w: World, e: Event, n: string, i: Interval)
    requires Enabled(w, e) && Inv(w) && SealNamesItsFiles(w) && Advance(w, e).queue.memory.pendingSeal.Some?
    requires Covers(Advance(w, e).queue, n, i)
    requires var seal' := Advance(w, e).queue.memory.pendingSeal.value; SamePlace(seal'.sessionId, seal'.sequence, i)
    ensures SealName(Advance(w, e).queue.memory.pendingSeal.value) == Some(n)
  {
    CoversAfter(w, e, n, i);
    SealAfter(w, e);
    if w.queue.memory.pendingSeal.None? {
      DrawnSealFits(w, e);
      NewPlaceIsFree(w, Advance(w, e).queue.memory.pendingSeal.value, n, i);
    }
  }

  lemma OneNameAfter(w: World, e: Event, n: string, i: Interval, n': string, i': Interval)
    requires Enabled(w, e) && OneName(w) && SamePlace(i.sessionId, i.sequence, i')
    requires Covers(Advance(w, e).queue, n, i) && Covers(Advance(w, e).queue, n', i')
    ensures n == n'
  {
    CoversAfter(w, e, n, i);
    CoversAfter(w, e, n', i');
  }

  lemma StepKeepsOneName(w: World, e: Event)
    requires Enabled(w, e) && Inv(w) && OneName(w)
    ensures OneName(Advance(w, e))
  {
    var w' := Advance(w, e);
    forall n, n', i, i' | Covers(w'.queue, n, i) && Covers(w'.queue, n', i') && SamePlace(i.sessionId, i.sequence, i')
      ensures n == n'
    {
      OneNameAfter(w, e, n, i, n', i');
    }
    if w'.queue.memory.pendingSeal.Some? {
      var seal' := w'.queue.memory.pendingSeal.value;
      forall n, i | Covers(w'.queue, n, i) && SamePlace(seal'.sessionId, seal'.sequence, i)
        ensures SealName(seal') == Some(n)
      {
        SealNamesAfter(w, e, n, i);
      }
    }
  }

  lemma {:induction false} RunKeepsOneName(ws: seq<World>, es: seq<Event>, k: nat)
    requires IsRun(ws, es) && k < |ws|
    ensures OneName(ws[k])
  {
    if k > 0 {
      RunKeepsOneName(ws, es, k - 1);
      RunKeepsInvariant(ws, es, k - 1);
      StepKeepsOneName(ws[k - 1], es[k - 1]);
    }
  }

  /** Two files, waiting or uploaded, that report the same place of a session are one file name. */
  lemma EachIntervalHasOneName(ws: seq<World>, es: seq<Event>, k: nat, n: string, i: Interval, n': string, i': Interval)
    requires IsRun(ws, es) && k < |ws| && Covers(ws[k].queue, n, i) && Covers(ws[k].queue, n', i')
    requires i.sessionId == i'.sessionId && i.sequence == i'.sequence < U64_MAX
    ensures n == n'
  {
    RunKeepsOneName(ws, es, k);
  }

  // ---------------------------------------------------------------------------
  // How a session ends
  // ---------------------------------------------------------------------------

  /** A session moves on to the end of each seal that says its tunnel runs, and ends with one that does not. */
  lemma SessionAfter(w: World, e: Event)
    requires SessionInv(w) && w.queue.memory.session.Some?
    ensures var s, s' := w.queue.memory.session.value, Advance(w, e).queue.memory.session;
            if !Finishes(w.queue, e) then s'.Some? && s'.value.(currentProcess := s.currentProcess) == s
            else
              && e.seal.sessionId == s.sessionId
              && s' == if e.seal.tunnelRunning
                       then Some(s.(sequence := e.seal.sequence, intervalStartedAt := e.seal.endedAt)) else None
  {
    if Reloads(e) {
      ReloadReadsTheStateFile(w, e);
    } else if !HandlesSession(e) {
      OtherEventsKeepSessions(w, e);
    } else if Finishes(w.queue, e) {
      FinishingMovesTheSession(w, e);
    } else {
      UnfinishedLeavesTheSession(w.queue, e);
    }
  }

  lemma FinishingMovesTheSession(w: World, e: Event)
    requires SessionInv(w) && w.queue.memory.session.Some? && Finishes(w.queue, e)
    ensures var s := w.queue.memory.session.value;
            && e.seal.sessionId == s.sessionId
            && Next(w.queue, e).memory.session ==
                 if e.seal.tunnelRunning
                 then Some(s.(sequence := e.seal.sequence, intervalStartedAt := e.seal.endedAt)) else None
  {
  }

  lemma UnfinishedLeavesTheSession(q: Queue, e: Event)
    requires HandlesSession(e) && !Finishes(q, e) && q.memory.session.Some?
    ensures Next(q, e).memory.session == q.memory.session
  {
  }

  /** The session is open, on the connection it was opened for. */
  predicate StandsOpen(w: World, s: Session) {
    var now := w.queue.memory.session;
    now.Some? && now.value.sessionId == s.sessionId && now.value.connectionId == s.connectionId
  }

  /** The event finishes the last report of the session. */
  predicate Ends(q: Queue, e: Event, s: Session) {
    Finishes(q, e) && e.seal.sessionId == s.sessionId && !e.seal.tunnelRunning
  }

  lemma StandsOpenAtNext(ws: seq<World>, es: seq<Event>, k: nat, s: Session)
    requires IsRun(ws, es) && k < |es| && StandsOpen(ws[k], s)
    ensures StandsOpen(ws[k + 1], s) || Ends(ws[k].queue, es[k], s)
  {
    RunKeepsInvariant(ws, es, k);
    SessionAfter(ws[k], es[k]);
  }

  /** A session stays open, whatever checkpoints and restarts pass, until a seal without a tunnel is finished. */
  lemma {:induction false} SessionStaysOpen(ws: seq<World>, es: seq<Event>, i: nat, k: nat)
    requires IsRun(ws, es) && i <= k < |ws| && ws[i].queue.memory.session.Some?
    ensures var s := ws[i].queue.memory.session.value;
            StandsOpen(ws[k], s) || exists j :: i <= j < k && Ends(ws[j].queue, es[j], s)
    decreases k - i
  {
    if i < k {
      SessionStaysOpen(ws, es, i, k - 1);
      var s := ws[i].queue.memory.session.value;
      if StandsOpen(ws[k - 1], s) {
        StandsOpenAtNext(ws, es, k - 1, s);
      }
    }
  }

  /** The event observed whether the tunnel of the sealed session still runs. */
  predicate ObservedFor(e: Event, seal: Seal) {
    && e.Observe? && e.newReportId == seal.reportId
    && (seal.tunnelRunning <==> e.connection == Some(seal.connectionId))
  }

  lemma SealAtNext(ws: seq<World>, es: seq<Event>, k: nat)
    requires IsRun(ws, es) && k < |es| && ws[k + 1].queue.memory.pendingSeal.Some?
    ensures var seal, seal' := ws[k].queue.memory.pendingSeal, ws[k + 1].queue.memory.pendingSeal.value;
            ObservedFor(es[k], seal') || (seal.Some? && SameSeal(seal', seal.value))
  {
    RunKeepsInvariant(ws, es, k);
    SealAfter(ws[k], es[k]);
  }

  /** A seal says that the tunnel runs exactly when the observation that drew it still saw the session's connection. */
  lemma {:induction false} SealTellsTheObservation(ws: seq<World>, es: seq<Event>, k: nat)
    requires IsRun(ws, es) && k < |ws| && ws[k].queue.memory.pendingSeal.Some?
    ensures exists d :: 0 <= d < k && ObservedFor(es[d], ws[k].queue.memory.pendingSeal.value)
  {
    assert k > 0;
    SealAtNext(ws, es, k - 1);
    if !ObservedFor(es[k - 1], ws[k].queue.memory.pendingSeal.value) {
      SealTellsTheObservation(ws, es, k - 1);
    }
  }

  /** A seal always has its session and a well-formed name: the two internal errors cannot occur. */
  lemma SealsAlwaysHaveTheirSession(ws: seq<World>, es: seq<Event>, i: nat, seal: Seal, report: Report, writable: bool)
    requires IsRun(ws, es) && i < |ws|
    ensures MaterializeAnswer(ws[i].queue, seal, report, writable) != NoSession
    ensures MaterializeAnswer(ws[i].queue, seal, report, writable) != BadName
  {
    RunKeepsInvariant(ws, es, i);
    SealHasItsSession(ws[i], seal);
  }

  lemma SealHasItsSession(w: World, seal: Seal)
    requires SessionInv(w) && IdentifierInv(w)
    ensures w.queue.memory.pendingSeal == Some(seal) ==> w.queue.memory.session.Some? && SealName(seal).Some?
  {
  }

  /** The current device was checked when it was set, so no intent report is refused for its device. */
  lemma CurrentDeviceIsWellFormed(ws: seq<World>, es: seq<Event>, i: nat, report: Report, at: Time, writable: bool)
    requires IsRun(ws, es) && i < |ws|
    ensures IntentAnswerOf(ws[i].queue, report, at, writable) != BadDevice
  {
    RunKeepsInvariant(ws, es, i);
  }

  /** A finished seal leaves its own report waiting, unless that file was damaged. */
  lemma FinishedSealHasItsReport(ws: seq<World>, es: seq<Event>, i: nat)
    requires IsRun(ws, es) && i < |es| && Finishes(ws[i].queue, es[i])
    ensures var n := SealName(es[i].seal); var pending := ws[i + 1].queue.pending;
            && n.Some? && n.value in pending
            && (pending[n.value].Readable? ==> pending[n.value].report.interval == Some(IntervalOf(es[i].seal)))
  {
    RunKeepsInvariant(ws, es, i);
    var n := SealName(es[i].seal).value;
    WritesNamedFor(ws[i], es[i]);
    if n in ws[i].queue.pending {
      NameTellsItsReport(n, ws[i].owner[n], es[i].seal.reportId);
    }
  }

  // ---------------------------------------------------------------------------
  // Identities and finished seals
  // ---------------------------------------------------------------------------

  /** The pending seal is the one with this identifier, and its identity is settled. */
  predicate Settled(w: World, reportId: string, identity: string) {
    var seal := w.queue.memory.pendingSeal;
    seal.Some? && seal.value.reportId == reportId ==> seal.value.identity == identity && !seal.value.captureIdentity
  }

  lemma StepKeepsSettled(w: World, e: Event, reportId: string, identity: string)
    requires Enabled(w, e) && SessionInv(w) && reportId in w.used && Settled(w, reportId, identity)
    ensures Settled(Advance(w, e), reportId, identity)
  {
    if Reloads(e) {
      ReloadReadsTheStateFile(w, e);
    } else if !HandlesSession(e) {
      OtherEventsKeepSessions(w, e);
    }
  }

  /**
   Once a seal no longer asks for an identity, because it was given one or because another process
   opened its session, nothing changes the identity it has, across any number of restarts.
   */
  lemma {:induction false} IdentityStaysSettled(ws: seq<World>, es: seq<Event>, i: nat, k: nat)
    requires IsRun(ws, es) && i <= k < |ws|
    requires ws[i].queue.memory.pendingSeal.Some? && !ws[i].queue.memory.pendingSeal.value.captureIdentity
    ensures var seal := ws[i].queue.memory.pendingSeal.value;
            seal.reportId in ws[k].used && Settled(ws[k], seal.reportId, seal.identity)
    decreases k - i
  {
    RunKeepsInvariant(ws, es, i);
    if i < k {
      IdentityStaysSettled(ws, es, i, k - 1);
      RunKeepsInvariant(ws, es, k - 1);
      var seal := ws[i].queue.memory.pendingSeal.value;
      StepKeepsSettled(ws[k - 1], es[k - 1], seal.reportId, seal.identity);
    }
  }

  /** Only the process that opened a session has it marked as its own, or has a seal ask for its identity. */
  lemma ProcessAfter(w: World, e: Event)
    requires SessionInv(w)
    ensures var s, s' := w.queue.memory.session, Advance(w, e).queue.memory.session;
            s'.Some? && s'.value.currentProcess ==>
              || (OpensSession(w.queue, e) && s'.value.sessionId == e.sessionId)
              || (!Reloads(e) && s.Some? && s.value.currentProcess && s.value.sessionId == s'.value.sessionId)
  {
    if Reloads(e) {
      ReloadReadsTheStateFile(w, e);
    } else if !HandlesSession(e) {
      OtherEventsKeepSessions(w, e);
    }
  }

  lemma AskingAfter(w: World, e: Event)
    requires SessionInv(w)
    ensures var a, a' := w.queue.memory, Advance(w, e).queue.memory;
            a'.pendingSeal.Some? && a'.pendingSeal.value.captureIdentity ==>
              || (a.pendingSeal.None? && a.session.Some? && a.session.value.currentProcess && a'.session == a.session)
              || (!Reloads(e) && a.pendingSeal.Some? && a.pendingSeal.value.captureIdentity && a'.session == a.session)
  {
    if Reloads(e) {
      ReloadReadsTheStateFile(w, e);
    } else if !HandlesSession(e) {
      OtherEventsKeepSessions(w, e);
    }
  }

  lemma ProcessAtNext(ws: seq<World>, es: seq<Event>, k: nat)
    requires IsRun(ws, es) && k < |es|
    requires Asks(ws[k]) ==> IsOwn(ws[k])
    ensures Asks(ws[k + 1]) ==> IsOwn(ws[k + 1])
    ensures IsOwn(ws[k + 1]) ==>
              || (OpensSession(ws[k].queue, es[k]) && SessionOf(ws[k + 1]) == es[k].sessionId)
              || (!Reloads(es[k]) && IsOwn(ws[k]) && SessionOf(ws[k]) == SessionOf(ws[k + 1]))
  {
    RunKeepsInvariant(ws, es, k);
    ProcessAfter(ws[k], es[k]);
    AskingAfter(ws[k], es[k]);
  }

  /** The pending seal waits for the identity of the running process. */
  predicate Asks(w: World) {
    w.queue.memory.pendingSeal.Some? && w.queue.memory.pendingSeal.value.captureIdentity
  }

  predicate IsOwn(w: World) {
    w.queue.memory.session.Some? && w.queue.memory.session.value.currentProcess
  }

  function SessionOf(w: World): string
    requires IsOwn(w)
  {
    w.queue.memory.session.value.sessionId
  }

  /** The session was opened at `o`, and no process has ended since. */
  predicate OpenedSince(ws: seq<World>, es: seq<Event>, o: nat, k: nat, sessionId: string)
    requires o < k <= |es| && |ws| == |es| + 1
  {
    && OpensSession(ws[o].queue, es[o]) && es[o].sessionId == sessionId
    && forall m :: o < m < k ==> !Reloads(es[m])
  }

  /** The process that opened the session is still running. */
  ghost predicate WasOpened(ws: seq<World>, es: seq<Event>, k: nat, sessionId: string)
    requires k <= |es| && |ws| == |es| + 1
  {
    exists o :: 0 <= o < k && OpenedSince(ws, es, o, k, sessionId)
  }

  lemma StaysOpened(ws: seq<World>, es: seq<Event>, k: nat, sessionId: string)
    requires k < |es| && |ws| == |es| + 1
    requires (OpensSession(ws[k].queue, es[k]) && es[k].sessionId == sessionId)
             || (!Reloads(es[k]) && WasOpened(ws, es, k, sessionId))
    ensures WasOpened(ws, es, k + 1, sessionId)
  {
    if OpensSession(ws[k].queue, es[k]) && es[k].sessionId == sessionId {
      assert OpenedSince(ws, es, k, k + 1, sessionId);
    } else {
      var o :| 0 <= o < k && OpenedSince(ws, es, o, k, sessionId);
      assert OpenedSince(ws, es, o, k + 1, sessionId);
    }
  }

  lemma AskedForItsSession(w: World)
    requires SessionInv(w) && Asks(w) && IsOwn(w)
    ensures w.queue.memory.pendingSeal.value.sessionId == SessionOf(w)
  {
  }

  /** A seal asks for an identity only in the process that opened its session. */
  lemma {:induction false} OnlyTheOpeningProcessIsAsked(ws: seq<World>, es: seq<Event>, k: nat)
    requires IsRun(ws, es) && k < |ws|
    ensures Asks(ws[k]) ==> IsOwn(ws[k]) && ws[k].queue.memory.pendingSeal.value.sessionId == SessionOf(ws[k])
    ensures IsOwn(ws[k]) ==> WasOpened(ws, es, k, SessionOf(ws[k]))
  {
    if k > 0 {
      OnlyTheOpeningProcessIsAsked(ws, es, k - 1);
      ProcessAtNext(ws, es, k - 1);
      if IsOwn(ws[k]) {
        StaysOpened(ws, es, k - 1, SessionOf(ws[k]));
        if Asks(ws[k]) {
          RunKeepsInvariant(ws, es, k);
          AskedForItsSession(ws[k]);
        }
      }
    }
  }

  lemma {:induction false} DoneGrows(ws: seq<World>, es: seq<Event>, i: nat, j: nat)
    requires IsRun(ws, es) && i <= j < |ws|
    ensures ws[i].done <= ws[j].done
    decreases j - i
  {
    if i < j {
      DoneGrows(ws, es, i, j - 1);
    }
  }

  /**
   Once a seal is finished, no later attempt to finish it succeeds or changes anything, whether
   its report was uploaded since or another seal is pending.
   */
  lemma FinishedAtMostOnce(ws: seq<World>, es: seq<Event>, i: nat, k: nat)
    requires IsRun(ws, es) && i < k < |es| && Finishes(ws[i].queue, es[i])
    requires es[k].Materialize? && es[k].seal.reportId == es[i].seal.reportId
    ensures !Finishes(ws[k].queue, es[k]) && ws[k + 1] == ws[k]
  {
    DoneGrows(ws, es, i + 1, k);
    RunKeepsInvariant(ws, es, k);
    DoneIsNotFinished(ws[k], es[k]);
  }

  lemma DoneIsNotFinished(w: World, e: Event)
    requires IdentifierInv(w) && e.Materialize? && e.seal.reportId in w.done
    ensures !Finishes(w.queue, e) && Advance(w, e) == w
  {
  }
}
