/**
 The foreground enrichment: one background worker that refreshes the account, provisions the
 native side and acknowledges a quick-state change, while actions and polls keep running.
 Each step is what the worker does between two points where it may be suspended.
 */
module Enrichment {
  import opened Wrappers
  import opened Coordinator

  datatype Owner = Owner(generation: nat, desiredActive: bool)

  /** What the native side answers when the fence is checked; either answer may be missing. */
  datatype Native = Native(quickRevision: Option<nat>, owner: Option<Owner>)

  datatype Fence = Fence(projection: nat, quickRevision: nat, owner: Owner)

  predicate NativeMatches(fence: Fence, native: Native) {
    native.quickRevision == Some(fence.quickRevision) && native.owner == Some(fence.owner)
  }

  predicate FenceIsCurrent(fence: Fence, s: State, native: Native) {
    fence.projection == s.projectionEpoch && NativeMatches(fence, native)
  }

  datatype Outcome = Applied | Superseded | Error

  /** `Returned`: the provisioning has returned without an error, whatever it did or skipped. */
  datatype Phase =
    | Queued | Bootstrapping | AwaitingGate | Provisioning | AwaitingOptions | Planning | Returned
    | Done(outcome: Outcome)

  /**
   `wantsPlan` is the bootstrap's word on whether there is a quick plan to prepare. `provisioned`,
   `planned` and `acknowledged` record the three native effects the worker may have.
   */
  datatype Worker = Worker(fence: Fence, phase: Phase, wantsPlan: bool,
                           provisioned: bool, planned: bool, acknowledged: bool)

  function NewWorker(fence: Fence): Worker {
    Worker(fence, Queued, false, false, false, false)
  }

  /** What the worker does when it goes on, with the native answers of the fence check it makes. */
  datatype Step =
    | Enter(native: Native)
    | BootstrapReturned(succeeded: bool, planWanted: bool, native: Native)
    | GateAcquired(native: Native)
    | ProvisionReturned(succeeded: bool, native: Native)
    | OptionsReturned(succeeded: bool, native: Native)
    | PlanReturned(succeeded: bool)
    | FinalCheck(native: Native, acknowledgeSucceeds: bool)

  predicate Due(phase: Phase, step: Step) {
    match step
    case Enter(_) => phase == Queued
    case BootstrapReturned(_, _, _) => phase == Bootstrapping
    case GateAcquired(_) => phase == AwaitingGate
    case ProvisionReturned(_, _) => phase == Provisioning
    case OptionsReturned(_, _) => phase == AwaitingOptions
    case PlanReturned(_) => phase == Planning
    case FinalCheck(_, _) => phase == Returned
  }

  function Work(w: Worker, s: State, step: Step): Worker
    requires Due(w.phase, step)
  {
    match step
    case Enter(native) =>
      w.(phase := if FenceIsCurrent(w.fence, s, native) then Bootstrapping else Done(Superseded))
    case BootstrapReturned(succeeded, planWanted, native) =>
      if !succeeded then w.(phase := Done(Error))
      else if !FenceIsCurrent(w.fence, s, native) then w.(phase := Done(Superseded))
      else w.(phase := AwaitingGate, wantsPlan := planWanted)
    case GateAcquired(native) =>
      if FenceIsCurrent(w.fence, s, native) then w.(phase := Provisioning, provisioned := true)
      else w.(phase := Returned)
    case ProvisionReturned(succeeded, native) =>
      if !succeeded then w.(phase := Done(Error))
      else w.(phase := if FenceIsCurrent(w.fence, s, native) && w.wantsPlan then AwaitingOptions else Returned)
    case OptionsReturned(succeeded, native) =>
      if !succeeded then w.(phase := Done(Error))
      else if FenceIsCurrent(w.fence, s, native) then w.(phase := Planning, planned := true)
      else w.(phase := Returned)
    case PlanReturned(succeeded) => w.(phase := if succeeded then Returned else Done(Error))
    case FinalCheck(native, acknowledgeSucceeds) =>
      if FenceIsCurrent(w.fence, s, native)
      then w.(phase := Done(if acknowledgeSucceeds then Applied else Error), acknowledged := true)
      else w.(phase := Done(Superseded))
  }

  /** The worker beside the coordinator; anything may happen to the coordinator between its steps. */
  datatype System = System(state: State, worker: Worker)

  datatype Item = Coordinate(event: Event) | Enrich(step: Step)

  predicate Possible(y: System, item: Item) {
    item.Enrich? ==> Due(y.worker.phase, item.step)
  }

  function After(y: System, item: Item): System
    requires Possible(y, item)
  {
    match item
    case Coordinate(event) => y.(state := Next(y.state, event))
    case Enrich(step) => y.(worker := Work(y.worker, y.state, step))
  }

  /** A run from the moment the fence's ticket was taken, in any coordinator state. */
  ghost predicate IsRun(ys: seq<System>, items: seq<Item>) {
    && |ys| == |items| + 1
    && ys[0].worker == NewWorker(ys[0].worker.fence)
    && ys[0].worker.fence.projection == ys[0].state.projectionEpoch
    && forall i :: 0 <= i < |items| ==> Possible(ys[i], items[i]) && ys[i + 1] == After(ys[i], items[i])
  }

  /** The item begins an action or brings one to its end. */
  predicate Disturbs(y: System, item: Item) {
    item.Coordinate? && MovesEpoch(y.state, item.event)
  }

  lemma {:induction false} EpochStandsExactly(ys: seq<System>, items: seq<Item>, k: nat)
    requires IsRun(ys, items) && k < |ys|
    ensures ys[k].worker.fence == ys[0].worker.fence
    ensures ys[k].state.projectionEpoch >= ys[0].state.projectionEpoch
    ensures ys[k].state.projectionEpoch == ys[0].state.projectionEpoch
        <==> forall j :: 0 <= j < k ==> !Disturbs(ys[j], items[j])
  {
    if k > 0 {
      EpochStandsExactly(ys, items, k - 1);
    }
  }

  /**
   A fence check passes exactly when the native answers match and no Start, Stop, Toggle or
   Clear began or ended since the ticket: epochs never recur, and polls do not move them.
   */
  lemma FencePassesExactly(ys: seq<System>, items: seq<Item>, k: nat, native: Native)
    requires IsRun(ys, items) && k < |ys|
    ensures FenceIsCurrent(ys[k].worker.fence, ys[k].state, native) <==>
              && NativeMatches(ys[0].worker.fence, native)
              && forall j :: 0 <= j < k ==> !Disturbs(ys[j], items[j])
  {
    EpochStandsExactly(ys, items, k);
  }

  /** Ordinary polling and ticket taking, however much of it, leaves the fence to the native answers. */
  lemma PollsNeverDisturb(ys: seq<System>, items: seq<Item>, k: nat, native: Native)
    requires IsRun(ys, items) && k < |ys|
    requires forall j :: 0 <= j < k && items[j].Coordinate? ==>
               items[j].event.TakeObservation? || items[j].event.ObserveStatus? || items[j].event.ObserveSnapshot?
               || items[j].event.FinalizeStatus? || items[j].event.TakeStartTicket?
    ensures FenceIsCurrent(ys[k].worker.fence, ys[k].state, native) <==> NativeMatches(ys[0].worker.fence, native)
  {
    FencePassesExactly(ys, items, k, native);
  }

  /** The step has a native effect: it provisions, prepares the quick plan or acknowledges. */
  predicate HasEffect(w: Worker, w': Worker) {
    || (!w.provisioned && w'.provisioned)
    || (!w.planned && w'.planned)
    || (!w.acknowledged && w'.acknowledged)
  }

  /** Each native effect follows a check that found both answers and nothing begun or ended since the ticket. */
  lemma EffectsOnlyWhenUndisturbed(ys: seq<System>, items: seq<Item>, k: nat)
    requires IsRun(ys, items) && k < |items| && HasEffect(ys[k].worker, ys[k + 1].worker)
    ensures forall j :: 0 <= j < k ==> !Disturbs(ys[j], items[j])
    ensures items[k].Enrich? && !items[k].step.PlanReturned?
    ensures NativeMatches(ys[0].worker.fence, items[k].step.native)
  {
    EpochStandsExactly(ys, items, k);
  }

  /** The check behind the provisioning gate failed, so everything was skipped without an error. */
  predicate GateMissed(y: System, item: Item) {
    && item.Enrich? && item.step.GateAcquired?
    && !FenceIsCurrent(y.worker.fence, y.state, item.step.native)
  }

  /** One of the two checks before a wanted quick plan failed, so the plan was skipped without an error. */
  predicate PlanMissed(y: System, item: Item) {
    && item.Enrich? && PlanCheck(y.worker, item.step) && item.step.succeeded
    && !FenceIsCurrent(y.worker.fence, y.state, item.step.native)
  }

  predicate PlanCheck(w: Worker, step: Step) {
    (step.ProvisionReturned? && w.wantsPlan) || step.OptionsReturned?
  }

  /** What the worker's phase says about its effects. */
  predicate Consistent(w: Worker) {
    && (w.phase in {Queued, Bootstrapping, AwaitingGate} ==> !w.provisioned)
    && (w.phase in {Provisioning, AwaitingOptions, Planning} ==> w.provisioned)
    && (w.phase in {AwaitingOptions, Planning} ==> w.wantsPlan)
    && (w.phase in {Provisioning, AwaitingOptions} ==> !w.planned)
    && (w.phase == Planning ==> w.planned)
    && (w.planned ==> w.provisioned && w.wantsPlan)
    && (!w.phase.Done? || w.phase == Done(Superseded) ==> !w.acknowledged)
    && (w.phase == Done(Applied) ==> w.acknowledged)
  }

  /** The phase always tells the effects, and a skipped effect always has a missed check behind it. */
  lemma {:induction false} PhaseTellsTheStory(ys: seq<System>, items: seq<Item>, k: nat)
    requires IsRun(ys, items) && k < |ys|
    ensures Consistent(ys[k].worker)
    ensures var w := ys[k].worker;
            (w.phase == Returned || w.acknowledged) && !w.provisioned ==>
              exists j :: 0 <= j < k && GateMissed(ys[j], items[j])
    ensures var w := ys[k].worker;
            (w.phase == Returned || w.acknowledged) && w.provisioned && w.wantsPlan && !w.planned ==>
              exists j :: 0 <= j < k && PlanMissed(ys[j], items[j])
  {
    if k > 0 {
      PhaseTellsTheStory(ys, items, k - 1);
      assert ys[k] == After(ys[k - 1], items[k - 1]);
      assert GateMissed(ys[k - 1], items[k - 1]) ==> 0 <= k - 1 < k;
      assert PlanMissed(ys[k - 1], items[k - 1]) ==> 0 <= k - 1 < k;
    }
  }

  /** What a missed check skipped stays undone: the worker passes each check once. */
  lemma {:induction false} MissedStaysMissed(ys: seq<System>, items: seq<Item>, j: nat, k: nat)
    requires IsRun(ys, items) && j < k < |ys| && (GateMissed(ys[j], items[j]) || PlanMissed(ys[j], items[j]))
    ensures var w := ys[k].worker;
            && (w.phase == Returned || w.phase.Done?) && !w.planned
            && (GateMissed(ys[j], items[j]) ==> !w.provisioned)
            && (PlanMissed(ys[j], items[j]) ==> w.provisioned && w.wantsPlan)
    decreases k
  {
    if j + 1 < k {
      MissedStaysMissed(ys, items, j, k - 1);
    } else {
      PhaseTellsTheStory(ys, items, j);
    }
    assert ys[k] == After(ys[k - 1], items[k - 1]);
  }

  /** An acknowledged worker reported no error before, so its checks were reached by success. */
  lemma {:induction false} NoErrorBefore(ys: seq<System>, items: seq<Item>, j: nat, k: nat)
    requires IsRun(ys, items) && j < k < |ys| && !ys[k].worker.phase.Done?
    ensures !ys[j + 1].worker.phase.Done?
    decreases k
  {
    if j + 1 < k {
      assert ys[k] == After(ys[k - 1], items[k - 1]);
      NoErrorBefore(ys, items, j, k - 1);
    }
  }

  /** Up to an undisturbed point, a check fails only by its native answers. */
  lemma MissedByNativeAnswers(ys: seq<System>, items: seq<Item>, j: nat, k: nat)
    requires IsRun(ys, items) && j < k < |ys| && ys[k].worker.phase == Returned
    requires items[j].Enrich? && forall i :: 0 <= i < k ==> !Disturbs(ys[i], items[i])
    ensures var w, step := ys[j].worker, items[j].step;
            && (GateMissed(ys[j], items[j]) <==> step.GateAcquired? && !NativeMatches(ys[0].worker.fence, step.native))
            && (PlanMissed(ys[j], items[j]) <==> PlanCheck(w, step) && !NativeMatches(ys[0].worker.fence, step.native))
  {
    EpochStandsExactly(ys, items, j);
    NoErrorBefore(ys, items, j, k);
  }

  /**
   The worker acknowledges without having provisioned exactly when a native answer was missing or different
   behind the gate; and without having prepared a wanted quick plan, although it provisioned, exactly when one
   was at a check before the plan. The projection cannot be why, and the answers had come back by the final check.
   */
  lemma UnpreparedAcknowledgement(ys: seq<System>, items: seq<Item>, k: nat)
    requires IsRun(ys, items) && k < |items|
    requires !ys[k].worker.acknowledged && ys[k + 1].worker.acknowledged
    ensures !ys[k].worker.provisioned <==>
              exists j :: 0 <= j < k && items[j].Enrich? && items[j].step.GateAcquired?
                          && !NativeMatches(ys[0].worker.fence, items[j].step.native)
    ensures ys[k].worker.provisioned && ys[k].worker.wantsPlan && !ys[k].worker.planned <==>
              exists j :: 0 <= j < k && items[j].Enrich? && PlanCheck(ys[j].worker, items[j].step)
                          && !NativeMatches(ys[0].worker.fence, items[j].step.native)
  {
    PhaseTellsTheStory(ys, items, k);
    EffectsOnlyWhenUndisturbed(ys, items, k);
    forall j | 0 <= j < k && items[j].Enrich?
      ensures GateMissed(ys[j], items[j]) <==>
                items[j].step.GateAcquired? && !NativeMatches(ys[0].worker.fence, items[j].step.native)
      ensures PlanMissed(ys[j], items[j]) <==>
                PlanCheck(ys[j].worker, items[j].step) && !NativeMatches(ys[0].worker.fence, items[j].step.native)
      ensures GateMissed(ys[j], items[j]) ==> !ys[k].worker.provisioned
      ensures PlanMissed(ys[j], items[j]) ==>
                ys[k].worker.provisioned && ys[k].worker.wantsPlan && !ys[k].worker.planned
    {
      MissedByNativeAnswers(ys, items, j, k);
      if GateMissed(ys[j], items[j]) || PlanMissed(ys[j], items[j]) {
        MissedStaysMissed(ys, items, j, k);
      }
    }
  }

  /** Such a run exists: the owner's status is unavailable once, while the gate is acquired. */
  lemma UnprovisionedAcknowledgementHappens(fence: Fence, s: State)
    returns (ys: seq<System>, items: seq<Item>)
    requires fence.projection == s.projectionEpoch
    ensures IsRun(ys, items) && ys[0] == System(s, NewWorker(fence))
    ensures var last := ys[|ys| - 1].worker;
            last.phase == Done(Applied) && last.acknowledged && !last.provisioned
  {
    var seen := Native(Some(fence.quickRevision), Some(fence.owner));
    items := [Enrich(Enter(seen)), Enrich(BootstrapReturned(true, true, seen)),
              Enrich(GateAcquired(seen.(owner := None))), Enrich(FinalCheck(seen, true))];
    var y0 := System(s, NewWorker(fence));
    var y1 := After(y0, items[0]);
    var y2 := After(y1, items[1]);
    var y3 := After(y2, items[2]);
    ys := [y0, y1, y2, y3, After(y3, items[3])];
  }

  /** And with the status unavailable once at the check before the plan's options are asked for. */
  lemma UnplannedAcknowledgementHappens(fence: Fence, s: State)
    returns (ys: seq<System>, items: seq<Item>)
    requires fence.projection == s.projectionEpoch
    ensures IsRun(ys, items) && ys[0] == System(s, NewWorker(fence))
    ensures var last := ys[|ys| - 1].worker;
            last.phase == Done(Applied) && last.provisioned && last.wantsPlan && !last.planned
  {
    var seen := Native(Some(fence.quickRevision), Some(fence.owner));
    items := [Enrich(Enter(seen)), Enrich(BootstrapReturned(true, true, seen)), Enrich(GateAcquired(seen)),
              Enrich(ProvisionReturned(true, seen.(owner := None))), Enrich(FinalCheck(seen, true))];
    var y0 := System(s, NewWorker(fence));
    var y1 := After(y0, items[0]);
    var y2 := After(y1, items[1]);
    var y3 := After(y2, items[2]);
    var y4 := After(y3, items[3]);
    ys := [y0, y1, y2, y3, y4, After(y4, items[4])];
  }

  /** Or at the check after them. */
  lemma UnplannedAfterOptionsHappens(fence: Fence, s: State)
    returns (ys: seq<System>, items: seq<Item>)
    requires fence.projection == s.projectionEpoch
    ensures IsRun(ys, items) && ys[0] == System(s, NewWorker(fence))
    ensures |items| == 6 && items[4] == Enrich(OptionsReturned(true, Native(Some(fence.quickRevision), None)))
    ensures var last := ys[|ys| - 1].worker;
            last.phase == Done(Applied) && last.provisioned && last.wantsPlan && !last.planned
  {
    var seen := Native(Some(fence.quickRevision), Some(fence.owner));
    items := [Enrich(Enter(seen)), Enrich(BootstrapReturned(true, true, seen)), Enrich(GateAcquired(seen)),
              Enrich(ProvisionReturned(true, seen)), Enrich(OptionsReturned(true, seen.(owner := None))),
              Enrich(FinalCheck(seen, true))];
    var y0 := System(s, NewWorker(fence));
    var y1 := After(y0, items[0]);
    var y2 := After(y1, items[1]);
    var y3 := After(y2, items[2]);
    var y4 := After(y3, items[3]);
    var y5 := After(y4, items[4]);
    ys := [y0, y1, y2, y3, y4, y5, After(y5, items[5])];
  }
}
