/** What becomes of a report from its first write to its removal, over every run of the queue. */
module ReportConservation {
  import opened Wrappers
  import opened ReportNames
  import opened DiagnosticsQueue
  import opened DiagnosticsHistory
  import opened SessionHistory
  import opened UploadOrder

  // ---------------------------------------------------------------------------
  // Candidates
  // ---------------------------------------------------------------------------

  /** The upload flag is set exactly while a candidate is live, and never are two. */
  lemma AtMostOneLiveCandidate(ws: seq<World>, es: seq<Event>, i: nat)
    requires IsRun(ws, es) && i < |ws|
    ensures forall h, g :: h in ws[i].leases && g in ws[i].leases ==> h == g
    ensures ws[i].queue.uploading <==> exists h :: h in ws[i].leases
  {
    RunKeepsInvariant(ws, es, i);
  }

  lemma LiveAfter(w: World, e: Event, h: nat)
    ensures h in w.leases && !Reloads(e) && e != Release(h) ==> h in Advance(w, e).leases
    ensures Finds(w.queue, e) ==> w.candidates in Advance(w, e).leases
  {
  }

  lemma LiveAtNext(ws: seq<World>, es: seq<Event>, j: nat, h: nat)
    requires IsRun(ws, es) && j < |es|
    ensures h in ws[j].leases && !Reloads(es[j]) && es[j] != Release(h) ==> h in ws[j + 1].leases
    ensures Finds(ws[j].queue, es[j]) ==> ws[j].candidates in ws[j + 1].leases
  {
    LiveAfter(ws[j], es[j], h);
  }

  lemma {:induction false} StaysLive(ws: seq<World>, i: nat, k: nat, h: nat)
    requires i <= k < |ws| && h in ws[i].leases
    requires forall j :: i <= j < k && h in ws[j].leases ==> h in ws[j + 1].leases
    ensures h in ws[k].leases
    decreases k - i
  {
    if i < k {
      StaysLive(ws, i, k - 1, h);
      assert h in ws[k - 1 + 1].leases;
    }
  }

  lemma CandidateStaysLive(ws: seq<World>, es: seq<Event>, i: nat, k: nat)
    requires IsRun(ws, es) && i < k < |ws| && Finds(ws[i].queue, es[i])
    requires forall j :: i < j < k ==> es[j] != Release(ws[i].candidates) && !Reloads(es[j])
    ensures ws[i].candidates in ws[k].leases
  {
    var h := ws[i].candidates;
    LiveAtNext(ws, es, i, h);
    forall j | i + 1 <= j < k && h in ws[j].leases
      ensures h in ws[j + 1].leases
    {
      LiveAtNext(ws, es, j, h);
    }
    StaysLive(ws, i + 1, k, h);
  }

  /** Between two candidates given out, the first was released or the process ended. */
  lemma CandidatesTakeTurns(ws: seq<World>, es: seq<Event>, i: nat, k: nat)
    requires IsRun(ws, es) && i < k < |es| && Finds(ws[i].queue, es[i]) && Finds(ws[k].queue, es[k])
    ensures exists j :: i < j < k && (es[j] == Release(ws[i].candidates) || Reloads(es[j]))
  {
    RunKeepsInvariant(ws, es, k);
    FoundIsWaiting(ws[k].queue, es[k]);
    if forall j :: i < j < k ==> es[j] != Release(ws[i].candidates) && !Reloads(es[j]) {
      CandidateStaysLive(ws, es, i, k);
    }
  }

  /** The report is uploaded, and stands among the uploaded ones with its contents. */
  predicate Arrives(q: Queue, e: Event, q': Queue, name: string) {
    && Uploaded(q, e, name)
    && q'.pending == q.pending - {name}
    && name in q'.sent && q'.sent[name] == q.pending[name]
  }

  lemma UploadedArrives(w: World, e: Event, name: string)
    requires Uploaded(w.queue, e, name)
    ensures Arrives(w.queue, e, Advance(w, e).queue, name)
  {
  }

  /** The first success a holder reports finds the report still waiting, and moves it with its contents. */
  lemma FirstSuccessFindsTheReport(ws: seq<World>, es: seq<Event>, i: nat)
    requires IsRun(ws, es) && i < |es| && es[i].Move?
    requires ws[i].leases[es[i].holder].stage == Waiting
    ensures Arrives(ws[i].queue, es[i], ws[i + 1].queue, es[i].name)
  {
    RunKeepsInvariant(ws, es, i);
    UploadedArrives(ws[i], es[i], es[i].name);
  }

  // ---------------------------------------------------------------------------
  // Waiting and uploaded reports
  // ---------------------------------------------------------------------------

  predicate DamagedBetween(es: seq<Event>, i: nat, k: nat, name: string)
    requires i <= k <= |es|
  {
    exists d :: i <= d < k && es[d] == Damage(name)
  }

  /** The report waits at `k` with what it held at `i`, unless its file was damaged in between. */
  predicate StillWaits(ws: seq<World>, es: seq<Event>, i: nat, k: nat, name: string)
    requires i <= k <= |es| && |ws| == |es| + 1 && name in ws[i].queue.pending
  {
    && name in ws[k].queue.pending
    && (ws[k].queue.pending[name] == ws[i].queue.pending[name] || DamagedBetween(es, i, k, name))
  }

  lemma StepWaits(ws: seq<World>, es: seq<Event>, i: nat, k: nat, name: string)
    requires IsRun(ws, es) && i <= k < |es| && name in ws[i].queue.pending && StillWaits(ws, es, i, k, name)
    ensures StillWaits(ws, es, i, k + 1, name) || Arrives(ws[k].queue, es[k], ws[k + 1].queue, name)
  {
    LeavesOnlyByUpload(ws[k], es[k], name);
    if Uploaded(ws[k].queue, es[k], name) {
      UploadedArrives(ws[k], es[k], name);
    } else {
      PendingAfter(ws[k], es[k], name);
      assert es[k] == Damage(name) ==> DamagedBetween(es, i, k + 1, name);
      assert DamagedBetween(es, i, k, name) ==> DamagedBetween(es, i, k + 1, name);
    }
  }

  /** A waiting report keeps waiting with its contents until it is uploaded with them. */
  lemma {:induction false} NoWaitingReportIsLost(ws: seq<World>, es: seq<Event>, i: nat, j: nat, name: string)
    requires IsRun(ws, es) && i <= j < |ws| && name in ws[i].queue.pending
    ensures || StillWaits(ws, es, i, j, name)
            || exists k :: i <= k < j && StillWaits(ws, es, i, k, name)
                           && Arrives(ws[k].queue, es[k], ws[k + 1].queue, name)
    decreases j - i
  {
    if i < j {
      NoWaitingReportIsLost(ws, es, i, j - 1, name);
      if StillWaits(ws, es, i, j - 1, name) {
        StepWaits(ws, es, i, j - 1, name);
      }
    }
  }

  lemma KeptAtNext(ws: seq<World>, es: seq<Event>, k: nat, name: string)
    requires IsRun(ws, es) && k < |es| && KeptOrSuperseded(ws[k].queue.sent, name)
    ensures KeptOrSuperseded(ws[k + 1].queue.sent, name)
  {
    StepKeepsOrSupersedes(ws[k], es[k], name);
  }

  lemma {:induction false} StaysKept(ws: seq<World>, i: nat, j: nat, name: string)
    requires i <= j < |ws| && KeptOrSuperseded(ws[i].queue.sent, name)
    requires forall k :: i <= k < j && KeptOrSuperseded(ws[k].queue.sent, name) ==>
               KeptOrSuperseded(ws[k + 1].queue.sent, name)
    ensures KeptOrSuperseded(ws[j].queue.sent, name)
    decreases j - i
  {
    if i < j {
      StaysKept(ws, i, j - 1, name);
      assert KeptOrSuperseded(ws[j - 1 + 1].queue.sent, name);
    }
  }

  lemma UploadedIsKeptOrSuperseded(ws: seq<World>, es: seq<Event>, i: nat, j: nat, name: string)
    requires IsRun(ws, es) && i <= j < |ws| && name in ws[i].queue.sent
    ensures KeptOrSuperseded(ws[j].queue.sent, name)
  {
    forall k | i <= k < j && KeptOrSuperseded(ws[k].queue.sent, name)
      ensures KeptOrSuperseded(ws[k + 1].queue.sent, name)
    {
      KeptAtNext(ws, es, k, name);
    }
    StaysKept(ws, i, j, name);
  }

  /** At any later time a report waits, is among the uploaded ones, or three with greater names are. */
  lemma EveryReportIsAccountedFor(ws: seq<World>, es: seq<Event>, i: nat, j: nat, name: string)
    requires IsRun(ws, es) && i <= j < |ws| && name in ws[i].queue.pending
    ensures name in ws[j].queue.pending || KeptOrSuperseded(ws[j].queue.sent, name)
  {
    NoWaitingReportIsLost(ws, es, i, j, name);
    if !StillWaits(ws, es, i, j, name) {
      var k :| i <= k < j && StillWaits(ws, es, i, k, name) && Arrives(ws[k].queue, es[k], ws[k + 1].queue, name);
      UploadedIsKeptOrSuperseded(ws, es, k + 1, j, name);
    }
  }
}
