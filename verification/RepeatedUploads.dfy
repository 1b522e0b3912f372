/**
 Reports that are moved to the uploaded ones a second time: exactly when that can still happen,
 and a run in which it does.
 */
module RepeatedUploads {
  import opened FixedWidth
  import opened Wrappers
  import opened ReportNames
  import opened RetryRotation
  import opened DiagnosticsQueue
  import opened DiagnosticsHistory
  import opened SessionHistory
  import opened UploadOrder
  import opened ReportConservation

  // ---------------------------------------------------------------------------
  // Reports written twice
  // ---------------------------------------------------------------------------

  predicate WritesTo(q: Queue, e: Event, name: string) {
    Writes(q, e).Some? && Writes(q, e).value.0 == name
  }

  /** A report appears between two steps only by a write. */
  lemma AppearsByWriting(ws: seq<World>, es: seq<Event>, k: nat, name: string)
    requires IsRun(ws, es) && k < |es| && name !in ws[k].queue.pending && name in ws[k + 1].queue.pending
    ensures WritesTo(ws[k].queue, es[k], name)
  {
    PendingAfter(ws[k], es[k], name);
  }

  lemma {:induction false} AppearsSomewhere(ws: seq<World>, i: nat, k: nat, name: string) returns (j: nat)
    requires i <= k < |ws| && name !in ws[i].queue.pending && name in ws[k].queue.pending
    ensures i <= j < k && name !in ws[j].queue.pending && name in ws[j + 1].queue.pending
    decreases k - i
  {
    if name in ws[k - 1].queue.pending {
      j := AppearsSomewhere(ws, i, k - 1, name);
    } else {
      j := k - 1;
    }
  }

  lemma WrittenInBetween(ws: seq<World>, es: seq<Event>, i: nat, k: nat, name: string) returns (j: nat)
    requires IsRun(ws, es) && i <= k < |ws| && name !in ws[i].queue.pending && name in ws[k].queue.pending
    ensures i <= j < k && WritesTo(ws[j].queue, es[j], name)
  {
    j := AppearsSomewhere(ws, i, k, name);
    AppearsByWriting(ws, es, j, name);
  }

  /** What is written uninterrupted is written for good: its identifier is spent. */
  lemma WritingSpends(ws: seq<World>, es: seq<Event>, a: nat)
    requires IsRun(ws, es) && a < |es| && Writes(ws[a].queue, es[a]).Some? && !es[a].MaterializeInterrupted?
    ensures Writes(ws[a].queue, es[a]).value.1 in ws[a + 1].done
  {
    if es[a].Materialize? {
      SealsAlwaysHaveTheirSession(ws, es, a, es[a].seal, es[a].report, es[a].writable);
    }
  }

  lemma SpentIsNotWritten(w: World, e: Event)
    requires Enabled(w, e) && SessionInv(w) && IdentifierInv(w) && Writes(w.queue, e).Some?
    ensures Writes(w.queue, e).value.1 !in w.done
  {
    WritesNamedFor(w, e);
  }

  lemma WrittenTwiceOnlyAfterInterruption(ws: seq<World>, es: seq<Event>, a: nat, j: nat, name: string)
    requires IsRun(ws, es) && a < j < |es|
    requires WritesTo(ws[a].queue, es[a], name) && WritesTo(ws[j].queue, es[j], name)
    ensures es[a].MaterializeInterrupted?
  {
    RunKeepsInvariant(ws, es, a);
    RunKeepsInvariant(ws, es, j);
    WritesNamedFor(ws[a], es[a]);
    WritesNamedFor(ws[j], es[j]);
    NameTellsItsReport(name, Writes(ws[a].queue, es[a]).value.1, Writes(ws[j].queue, es[j]).value.1);
    SpentIsNotWritten(ws[j], es[j]);
    if !es[a].MaterializeInterrupted? {
      DoneGrows(ws, es, a + 1, j);
      WritingSpends(ws, es, a);
    }
  }

  /** A report is moved a second time only if the process once ended between its write and the save. */
  lemma MovedTwiceOnlyAfterInterruption(ws: seq<World>, es: seq<Event>, i: nat, k: nat, name: string)
    requires IsRun(ws, es) && i < k < |es|
    requires Uploaded(ws[i].queue, es[i], name) && Uploaded(ws[k].queue, es[k], name)
    ensures exists a :: 0 <= a < i && es[a].MaterializeInterrupted? && WritesTo(ws[a].queue, es[a], name)
  {
    var a := WrittenInBetween(ws, es, 0, i, name);
    UploadedArrives(ws[i], es[i], name);
    var j := WrittenInBetween(ws, es, i + 1, k, name);
    WrittenTwiceOnlyAfterInterruption(ws, es, a, j, name);
  }

  // ---------------------------------------------------------------------------
  // What a second upload takes
  // ---------------------------------------------------------------------------

  /** The seal the report was written for is still pending. */
  predicate SealStillWaits(q: Queue, name: string) {
    q.memory.pendingSeal.Some? && SealName(q.memory.pendingSeal.value) == Some(name)
  }

  lemma UsedGrows(ws: seq<World>, es: seq<Event>, k: nat)
    requires IsRun(ws, es) && k < |es|
    ensures ws[k].used <= ws[k + 1].used
  {
  }

  lemma {:induction false} StaysUsed(ws: seq<World>, es: seq<Event>, i: nat, k: nat, id: string)
    requires IsRun(ws, es) && i <= k < |ws| && id in ws[i].used
    ensures id in ws[k].used
    decreases k - i
  {
    if i < k {
      StaysUsed(ws, es, i, k - 1, id);
      UsedGrows(ws, es, k - 1);
    }
  }

  /** A seal whose identifier was there before an event was itself pending before it. */
  lemma SealWasPendingBefore(ws: seq<World>, es: seq<Event>, k: nat)
    requires IsRun(ws, es) && k < |es| && ws[k + 1].queue.memory.pendingSeal.Some?
    requires ws[k + 1].queue.memory.pendingSeal.value.reportId in ws[k].used
    ensures var seal, seal' := ws[k].queue.memory.pendingSeal, ws[k + 1].queue.memory.pendingSeal.value;
            seal.Some? && SameSeal(seal', seal.value)
  {
    RunKeepsInvariant(ws, es, k);
    SealAfter(ws[k], es[k]);
  }

  lemma {:induction false} SealWasPending(ws: seq<World>, es: seq<Event>, i: nat, k: nat)
    requires IsRun(ws, es) && i <= k < |ws| && ws[k].queue.memory.pendingSeal.Some?
    requires ws[k].queue.memory.pendingSeal.value.reportId in ws[i].used
    ensures var seal, seal' := ws[i].queue.memory.pendingSeal, ws[k].queue.memory.pendingSeal.value;
            seal.Some? && SealName(seal') == SealName(seal.value)
    decreases k - i
  {
    if i < k {
      StaysUsed(ws, es, i, k - 1, ws[k].queue.memory.pendingSeal.value.reportId);
      SealWasPendingBefore(ws, es, k - 1);
      SealWasPending(ws, es, i, k - 1);
    }
  }

  lemma OwnerOf(ws: seq<World>, es: seq<Event>, i: nat, name: string) returns (id: string)
    requires IsRun(ws, es) && i < |ws| && name in ws[i].queue.pending
    ensures id in ws[i].used && NamedFor(name, id)
  {
    RunKeepsInvariant(ws, es, i);
    id := ws[i].owner[name];
  }

  /** A write under a name that was used before is the write of the pending seal. */
  lemma RewriteIsOfTheSeal(ws: seq<World>, es: seq<Event>, j: nat, name: string, id: string)
    requires IsRun(ws, es) && j < |es| && WritesTo(ws[j].queue, es[j], name)
    requires NamedFor(name, id) && id in ws[j].used
    ensures SealStillWaits(ws[j].queue, name) && ws[j].queue.memory.pendingSeal.value.reportId == id
  {
    RunKeepsInvariant(ws, es, j);
    WritesNamedFor(ws[j], es[j]);
    NameTellsItsReport(name, id, Writes(ws[j].queue, es[j]).value.1);
  }

  /** Only a report whose seal still waits when it is moved is ever moved again. */
  lemma MovedTwiceOnlyWhileSealWaits(ws: seq<World>, es: seq<Event>, i: nat, k: nat, name: string)
    requires IsRun(ws, es) && i < k < |es|
    requires Uploaded(ws[i].queue, es[i], name) && Uploaded(ws[k].queue, es[k], name)
    ensures SealStillWaits(ws[i].queue, name)
  {
    var id := OwnerOf(ws, es, i, name);
    UploadedArrives(ws[i], es[i], name);
    var j := WrittenInBetween(ws, es, i + 1, k, name);
    StaysUsed(ws, es, i, j, id);
    RewriteIsOfTheSeal(ws, es, j, name, id);
    SealWasPending(ws, es, i, j);
  }

  // ---------------------------------------------------------------------------
  // Reaching a waiting report
  // ---------------------------------------------------------------------------

  predicate Steps(ws: seq<World>, es: seq<Event>) {
    && |ws| == |es| + 1
    && forall i :: 0 <= i < |es| ==> Enabled(ws[i], es[i]) && ws[i + 1] == Advance(ws[i], es[i])
  }

  lemma StepsJoin(ws: seq<World>, es: seq<Event>, ws': seq<World>, es': seq<Event>)
    requires Steps(ws, es) && Steps(ws', es') && ws'[0] == ws[|es|]
    ensures Steps(ws + ws'[1..], es + es')
    ensures (ws + ws'[1..])[|es| + |es'|] == ws'[|es'|]
  {
    var all, events := ws + ws'[1..], es + es';
    assert forall i :: |es| <= i < |all| ==> all[i] == ws'[i - |es|];
    assert forall i :: 0 <= i < |ws| ==> all[i] == ws[i];
    assert forall i :: 0 <= i < |es| ==> events[i] == es[i];
  }

  lemma Joined(a: seq<World>, ea: seq<Event>, b: seq<World>, eb: seq<Event>) returns (ws: seq<World>, es: seq<Event>)
    requires Steps(a, ea) && Steps(b, eb) && b[0] == a[|ea|]
    ensures Steps(ws, es) && |es| == |ea| + |eb| && ws[0] == a[0] && ws[|es|] == b[|eb|]
  {
    StepsJoin(a, ea, b, eb);
    ws, es := a + b[1..], ea + eb;
  }

  /** No candidate is live. */
  predicate Idle(w: World) {
    !w.queue.uploading && w.leases == map[]
  }

  /** An attempt that waits for no schedule. */
  const ATTEMPT := Candidate(I64_MAX, false)

  function NextOf(q: Queue): string
    requires Choices(q) != []
  {
    var reports := Choices(q);
    reports[NextPlace(reports, q.memory.lastAttempted)]
  }

  /** An idle queue with reports of the device remembers the next one, and gives it out if it is readable. */
  lemma AttemptsTheNext(w: World)
    requires Idle(w) && Choices(w.queue) != []
    ensures var w', name := Advance(w, ATTEMPT), NextOf(w.queue);
            && name in w.queue.pending && w'.queue.pending == w.queue.pending
            && w'.queue.memory == w.queue.memory.(lastAttempted := Some(name))
            && if w.queue.pending[name].Readable?
               then w'.leases == map[w.candidates := Lease(name, Waiting)] else Idle(w')
  {
    assert NextOf(w.queue) in Choices(w.queue);
    assert Chosen(w.queue, false) == Some(NextOf(w.queue));
  }

  lemma OneStep(w: World, e: Event) returns (ws: seq<World>, es: seq<Event>)
    requires Enabled(w, e)
    ensures ws == [w, Advance(w, e)] && es == [e] && Steps(ws, es)
  {
    ws, es := [w, Advance(w, e)], [e];
  }

  lemma Attempts(w: World) returns (ws: seq<World>, es: seq<Event>)
    requires Idle(w) && Choices(w.queue) != []
    ensures Steps(ws, es) && |es| == 1 && ws[0] == w
    ensures var w', name := ws[1], NextOf(w.queue);
            && name in w.queue.pending && w'.queue.pending == w.queue.pending
            && w'.queue.memory == w.queue.memory.(lastAttempted := Some(name))
            && if w.queue.pending[name].Readable?
               then w'.leases == map[w.candidates := Lease(name, Waiting)] else Idle(w')
  {
    AttemptsTheNext(w);
    ws, es := OneStep(w, ATTEMPT);
  }

  lemma GivesBack(w: World, holder: nat, lease: Lease) returns (ws: seq<World>, es: seq<Event>)
    requires w.leases == map[holder := lease]
    ensures Steps(ws, es) && |es| == 1 && ws[0] == w && Idle(ws[1])
    ensures ws[1].queue.pending == w.queue.pending && ws[1].queue.memory == w.queue.memory
  {
    ws, es := OneStep(w, Release(holder));
    assert ws[1].leases == map[];
  }

  lemma Uploads(w: World, holder: nat, name: string) returns (ws: seq<World>, es: seq<Event>)
    requires w.leases == map[holder := Lease(name, Waiting)] && name in w.queue.pending
    ensures Steps(ws, es) && |es| == 1 && ws[0] == w && Uploaded(w.queue, es[0], name)
  {
    ws, es := OneStep(w, Move(holder, name));
  }

  /** One attempt at a report that is not the one looked for, given back if it was given out. */
  lemma PassesOver(w: World) returns (ws: seq<World>, es: seq<Event>)
    requires Idle(w) && Choices(w.queue) != []
    ensures Steps(ws, es) && ws[0] == w && Idle(ws[|es|])
    ensures ws[|es|].queue.pending == w.queue.pending
    ensures ws[|es|].queue.memory == w.queue.memory.(lastAttempted := Some(NextOf(w.queue)))
  {
    var name := NextOf(w.queue);
    ws, es := Attempts(w);
    if w.queue.pending[name].Readable? {
      var a, ea := GivesBack(ws[1], w.candidates, Lease(name, Waiting));
      StepsJoin(ws, es, a, ea);
      ws, es := ws + a[1..], es + ea;
    }
  }

  lemma UploadsTheNext(w: World) returns (ws: seq<World>, es: seq<Event>)
    requires Idle(w) && Choices(w.queue) != [] && NextOf(w.queue) in w.queue.pending
    requires w.queue.pending[NextOf(w.queue)].Readable?
    ensures Steps(ws, es) && |es| == 2 && ws[0] == w && Uploaded(ws[1].queue, es[1], NextOf(w.queue))
    ensures ws[1].queue.memory.pendingSeal == w.queue.memory.pendingSeal
  {
    var a, ea := Attempts(w);
    var b, eb := Uploads(a[1], w.candidates, NextOf(w.queue));
    StepsJoin(a, ea, b, eb);
    ws, es := a + b[1..], ea + eb;
    assert ws[1] == a[1] && es[1] == eb[0];
  }

  /** How many attempts lie before the report at place `p`. */
  function Ahead(reports: seq<string>, last: Option<string>, p: nat): nat
    requires p < |reports|
  {
    var i := NextPlace(reports, last);
    if i <= p then p - i else p + |reports| - i
  }

  lemma OneLessAhead(reports: seq<string>, last: Option<string>, p: nat)
    requires Increasing(reports) && p < |reports| && Ahead(reports, last, p) > 0
    ensures Ahead(reports, Some(reports[NextPlace(reports, last)]), p) == Ahead(reports, last, p) - 1
  {
    AfterTheOneAtPlace(reports, NextPlace(reports, last));
  }

  /** The readable report waits at place `p` of the device's reports, and no candidate is live. */
  predicate WaitsAt(w: World, reports: seq<string>, p: nat, name: string) {
    && Idle(w) && Choices(w.queue) == reports && p < |reports| && reports[p] == name
    && name in w.queue.pending && w.queue.pending[name].Readable?
  }

  lemma PassesTowards(w: World, reports: seq<string>, p: nat, name: string) returns (ws: seq<World>, es: seq<Event>)
    requires WaitsAt(w, reports, p, name) && Ahead(reports, LastOf(w), p) > 0
    ensures Steps(ws, es) && ws[0] == w && WaitsAt(ws[|es|], reports, p, name)
    ensures Ahead(reports, LastOf(ws[|es|]), p) == Ahead(reports, LastOf(w), p) - 1
    ensures ws[|es|].queue.memory.pendingSeal == w.queue.memory.pendingSeal
  {
    ws, es := PassesOver(w);
    OneLessAhead(reports, LastOf(w), p);
    SameChoices(w.queue, ws[|es|].queue);
  }

  lemma {:induction false} CanBeReached(w: World, reports: seq<string>, p: nat, name: string)
    returns (ws: seq<World>, es: seq<Event>, w': World)
    requires WaitsAt(w, reports, p, name)
    ensures Steps(ws, es) && ws[0] == w && ws[|es|] == w' && WaitsAt(w', reports, p, name)
    ensures NextPlace(reports, LastOf(w')) == p && w'.queue.memory.pendingSeal == w.queue.memory.pendingSeal
    decreases Ahead(reports, LastOf(w), p)
  {
    if Ahead(reports, LastOf(w), p) == 0 {
      ws, es, w' := [w], [], w;
    } else {
      var a, ea := PassesTowards(w, reports, p, name);
      var b, eb;
      b, eb, w' := CanBeReached(a[|ea|], reports, p, name);
      ws, es := Joined(a, ea, b, eb);
    }
  }

  lemma SameChoices(q: Queue, q': Queue)
    requires q'.pending == q.pending && q'.memory.currentDevice == q.memory.currentDevice
    ensures Choices(q') == Choices(q)
  {
  }

  /** From an idle queue, a readable report of the device can be uploaded, whatever else waits before it. */
  lemma CanBeUploaded(w: World, name: string) returns (ws: seq<World>, es: seq<Event>)
    requires Idle(w) && name in Choices(w.queue) && name in w.queue.pending && w.queue.pending[name].Readable?
    ensures Steps(ws, es) && ws[0] == w && es != [] && Uploaded(ws[|es| - 1].queue, es[|es| - 1], name)
    ensures ws[|es| - 1].queue.memory.pendingSeal == w.queue.memory.pendingSeal
  {
    var reports := Choices(w.queue);
    var p :| 0 <= p < |reports| && reports[p] == name;
    var a, ea, w' := CanBeReached(w, reports, p, name);
    var b, eb := UploadsTheNext(w');
    StepsJoin(a, ea, b, eb);
    ws, es := a + b[1..], ea + eb;
    assert ws[|es| - 1] == b[1] && es[|es| - 1] == eb[1];
  }

  // ---------------------------------------------------------------------------
  // Exactly when a report can be moved again
  // ---------------------------------------------------------------------------

  /** The run goes on to one that moves the report again. */
  ghost predicate MovesAgain(ws: seq<World>, es: seq<Event>, ws': seq<World>, es': seq<Event>, k: nat, name: string) {
    && IsRun(ws', es') && ws <= ws' && es <= es'
    && |es| <= k < |es'| && Uploaded(ws'[k].queue, es'[k], name)
  }

  lemma ReleasesTheLast(w: World, holder: nat) returns (ws: seq<World>, es: seq<Event>)
    requires LeaseInv(w) && holder in w.leases
    ensures Steps(ws, es) && |es| == 1 && ws[0] == w && Idle(ws[1])
    ensures ws[1].queue.memory == w.queue.memory && ws[1].queue.pending == w.queue.pending
  {
    ws, es := OneStep(w, Release(holder));
    assert ws[1].leases == map[];
  }

  lemma ComesBackToTheDevice(w: World, d: string) returns (ws: seq<World>, es: seq<Event>)
    requires Idle(w) && ValidScope(d)
    ensures Steps(ws, es) && |es| == 1 && ws[0] == w && Idle(ws[1])
    ensures ws[1].queue.memory == w.queue.memory.(currentDevice := Some(d)) && ws[1].queue.pending == w.queue.pending
  {
    ws, es := OneStep(w, SetDevice(d));
  }

  lemma WritesTheSeal(w: World, seal: Seal, name: string) returns (ws: seq<World>, es: seq<Event>)
    requires Idle(w) && w.queue.memory.pendingSeal == Some(seal) && SealName(seal) == Some(name)
    requires w.queue.memory.session.Some? && w.queue.memory.currentDevice == Some(seal.deviceId)
    requires name !in w.queue.pending
    ensures Steps(ws, es) && |es| == 1 && ws[0] == w && Idle(ws[1])
    ensures name in Choices(ws[1].queue) && name in ws[1].queue.pending && ws[1].queue.pending[name].Readable?
  {
    ScopeRoundTrip(seal.endedAt, seal.deviceId, ParseUuid(seal.reportId).value);
    ws, es := OneStep(w, Materialize(seal, Report(Some(seal.reportId), Some(IntervalOf(seal))), true));
    assert name in ReportsFor(ws[1].queue.pending, seal.deviceId);
  }

  /** Back to an idle queue of the seal's device, with the report written again. */
  lemma WritesAgain(w: World, holder: nat, seal: Seal, name: string) returns (ws: seq<World>, es: seq<Event>)
    requires LeaseInv(w) && holder in w.leases && name !in w.queue.pending && w.queue.memory.session.Some?
    requires w.queue.memory.pendingSeal == Some(seal) && SealName(seal) == Some(name)
    ensures Steps(ws, es) && ws[0] == w && Idle(ws[|es|])
    ensures var q := ws[|es|].queue; name in Choices(q) && name in q.pending && q.pending[name].Readable?
  {
    var a, ea := ReleasesTheLast(w, holder);
    var b, eb := ComesBackToTheDevice(a[1], seal.deviceId);
    StepsJoin(a, ea, b, eb);
    var c, ec := WritesTheSeal(b[1], seal, name);
    StepsJoin(a + b[1..], ea + eb, c, ec);
    ws, es := a + b[1..] + c[1..], ea + eb + ec;
  }

  lemma CanBeMovedAgain(ws: seq<World>, es: seq<Event>, name: string)
    returns (ws': seq<World>, es': seq<Event>, k: nat)
    requires IsRun(ws, es) && es != [] && Uploaded(ws[|es| - 1].queue, es[|es| - 1], name)
    requires SealStillWaits(ws[|es| - 1].queue, name)
    ensures MovesAgain(ws, es, ws', es', k, name)
  {
    var w, holder := ws[|es|], es[|es| - 1].holder;
    var seal := ws[|es| - 1].queue.memory.pendingSeal.value;
    RunKeepsInvariant(ws, es, |es|);
    MoveKeepsSealAndLease(ws[|es| - 1], es[|es| - 1]);
    var a, ea := WritesAgain(w, holder, seal, name);
    var b, eb := CanBeUploaded(a[|ea|], name);
    StepsJoin(a, ea, b, eb);
    ws', es', k := Prolonged(ws, es, a + b[1..], ea + eb, name);
  }

  lemma MoveKeepsSealAndLease(w: World, e: Event)
    requires Enabled(w, e) && e.Move? && e.name in w.queue.pending
    ensures var w' := Advance(w, e);
            && e.holder in w'.leases && e.name !in w'.queue.pending && w'.queue.memory == w.queue.memory
  {
  }

  /** A run followed by steps that end with the upload of the report. */
  lemma Prolonged(ws: seq<World>, es: seq<Event>, a: seq<World>, ea: seq<Event>, name: string)
    returns (ws': seq<World>, es': seq<Event>, k: nat)
    requires IsRun(ws, es) && Steps(a, ea) && a[0] == ws[|es|] && ea != []
    requires Uploaded(a[|ea| - 1].queue, ea[|ea| - 1], name)
    ensures MovesAgain(ws, es, ws', es', k, name)
  {
    StepsJoin(ws, es, a, ea);
    ws', es' := ws + a[1..], es + ea;
    k := |es| + |ea| - 1;
    assert ws'[k] == a[|ea| - 1] && es'[k] == ea[|ea| - 1];
  }

  lemma NotMovedAgain(ws: seq<World>, es: seq<Event>, name: string, ws': seq<World>, es': seq<Event>, k: nat)
    requires IsRun(ws, es) && es != [] && Uploaded(ws[|es| - 1].queue, es[|es| - 1], name)
    requires MovesAgain(ws, es, ws', es', k, name)
    ensures SealStillWaits(ws[|es| - 1].queue, name)
  {
    assert ws'[|es| - 1] == ws[|es| - 1] && es'[|es| - 1] == es[|es| - 1];
    MovedTwiceOnlyWhileSealWaits(ws', es', |es| - 1, k, name);
  }

  /**
   A report that was just moved to the uploaded ones can be moved there again by some continuation of the
   run exactly when its seal is still pending at that moment.
   */
  lemma MovedAgainExactly(ws: seq<World>, es: seq<Event>, name: string)
    requires IsRun(ws, es) && es != [] && Uploaded(ws[|es| - 1].queue, es[|es| - 1], name)
    ensures SealStillWaits(ws[|es| - 1].queue, name) <==>
              exists ws', es', k :: MovesAgain(ws, es, ws', es', k, name)
  {
    if SealStillWaits(ws[|es| - 1].queue, name) {
      var ws', es', k := CanBeMovedAgain(ws, es, name);
    }
    forall ws', es', k | MovesAgain(ws, es, ws', es', k, name)
      ensures SealStillWaits(ws[|es| - 1].queue, name)
    {
      NotMovedAgain(ws, es, name, ws', es', k);
    }
  }

  // ---------------------------------------------------------------------------
  // A run that moves a report twice
  // ---------------------------------------------------------------------------

  /** A session of the device is open, and nothing else has happened. */
  predicate JustOpened(w: World, d: string, sessionId: string) {
    && w.queue.memory == DEFAULT.(currentDevice := Some(d), session := Some(Session(true, "", sessionId, d, 0, 0)))
    && w.queue.pending == map[] && !w.queue.uploading && w.leases == map[]
  }

  lemma OpensASession(d: string, s: string, r: string) returns (ws: seq<World>, es: seq<Event>)
    requires ValidScope(d) && IsUuidText(s) && IsUuidText(r) && s != r
    ensures Steps(ws, es) && |es| == 2 && ws[0] == EMPTY && ws[2].used == {s, r} && JustOpened(ws[2], d, s)
  {
    es := [SetDevice(d), Observe(Some(""), true, 0, s, r)];
    var w1 := Advance(EMPTY, es[0]);
    ws := [EMPTY, w1, Advance(w1, es[1])];
  }

  /** The tunnel of the session is found stopped. */
  lemma SealsTheSession(w: World, d: string, s: string, s': string, r': string)
    returns (ws: seq<World>, es: seq<Event>, seal: Seal)
    requires JustOpened(w, d, s) && Fresh(w, s') && Fresh(w, r') && s' != r'
    ensures Steps(ws, es) && |es| == 1 && ws[0] == w && Idle(ws[1]) && seal.deviceId == d && seal.reportId == r'
    ensures var q := ws[1].queue;
            && q.memory == w.queue.memory.(pendingSeal := Some(seal))
            && q.saved == Stripped(q.memory) && q.pending == map[]
  {
    seal := SealOf(w.queue.memory.session.value, r', "tunnel_stopped", false, 0);
    ws, es := OneStep(w, Observe(None, false, 0, s', r'));
  }

  /** The report of the seal is written, and the process ends before the state is saved. */
  lemma WritesInterrupted(w: World, seal: Seal, name: string) returns (ws: seq<World>, es: seq<Event>)
    requires w.queue.memory.pendingSeal == Some(seal) && SealName(seal) == Some(name)
    requires w.queue.memory.session.Some? && w.queue.memory.currentDevice == Some(seal.deviceId)
    requires w.queue.saved == Stripped(w.queue.memory) && w.queue.pending == map[]
    ensures Steps(ws, es) && |es| == 1 && ws[0] == w && Idle(ws[1]) && SealStillWaits(ws[1].queue, name)
    ensures name in Choices(ws[1].queue) && name in ws[1].queue.pending && ws[1].queue.pending[name].Readable?
  {
    ws, es := OneStep(w, MaterializeInterrupted(seal, Report(Some(seal.reportId), Some(IntervalOf(seal)))));
    ScopeRoundTrip(seal.endedAt, seal.deviceId, ParseUuid(seal.reportId).value);
    assert name in ReportsFor(ws[1].queue.pending, seal.deviceId);
  }

  lemma WritesInterruptedReport(d: string, s: string, r: string, s': string, r': string)
    returns (ws: seq<World>, es: seq<Event>, name: string)
    requires ValidScope(d) && IsUuidText(s) && IsUuidText(r) && IsUuidText(s') && IsUuidText(r')
    requires s != r && s' != r' && s' !in {s, r} && r' !in {s, r}
    ensures Steps(ws, es) && |es| == 4 && ws[0] == EMPTY && Idle(ws[4]) && SealStillWaits(ws[4].queue, name)
    ensures name in Choices(ws[4].queue) && name in ws[4].queue.pending && ws[4].queue.pending[name].Readable?
  {
    var a, ea := OpensASession(d, s, r);
    var b, eb, seal := SealsTheSession(a[2], d, s, s', r');
    StepsJoin(a, ea, b, eb);
    name := SealName(seal).value;
    var c, ec := WritesInterrupted(b[1], seal, name);
    StepsJoin(a + b[1..], ea + eb, c, ec);
    ws, es := a + b[1..] + c[1..], ea + eb + ec;
  }

  /** For every device, and whatever identifiers are drawn, there is a run that moves a report twice. */
  lemma MovedTwiceHappens(d: string, s: string, r: string, s': string, r': string)
    returns (ws: seq<World>, es: seq<Event>, i: nat, k: nat, name: string)
    requires ValidScope(d) && IsUuidText(s) && IsUuidText(r) && IsUuidText(s') && IsUuidText(r')
    requires s != r && s' != r' && s' !in {s, r} && r' !in {s, r}
    ensures IsRun(ws, es) && i < k < |es|
    ensures Uploaded(ws[i].queue, es[i], name) && Uploaded(ws[k].queue, es[k], name)
  {
    var a, ea;
    a, ea, name := WritesInterruptedReport(d, s, r, s', r');
    var b, eb := CanBeUploaded(a[4], name);
    StepsJoin(a, ea, b, eb);
    i := 4 + |eb| - 1;
    assert (a + b[1..])[i] == b[|eb| - 1] && (ea + eb)[i] == eb[|eb| - 1];
    ws, es, k := CanBeMovedAgain(a + b[1..], ea + eb, name);
    assert ws[i] == (a + b[1..])[i] && es[i] == (ea + eb)[i];
  }
}
