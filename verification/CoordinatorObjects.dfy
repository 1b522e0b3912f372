/**
 The coordinator, the projection it guards and the Start side effect, as the objects
 whose fields the locked sections update. A method of the coordinator is one `Coordinator.Event`;
 a poll of a Start side effect is one or two, under one lock, or none.
 */
module CoordinatorObjects {
  import opened Wrappers
  import opened Coordinator

  class DesiredActiveProjection {
    var value: Projection

    constructor ()
      ensures value == Unknown
    {
      value := Unknown;
    }

    method ObserveConfirmed(desiredActive: bool)
      modifies this
      ensures value == Confirmed(desiredActive)
    {
      value := if desiredActive then Active else Stopped;
    }

    method ObserveSnapshot(changed: bool, desiredActive: Option<bool>)
      modifies this
      ensures value == if changed then Snapshot(desiredActive) else old(value)
    {
      if !changed {
        return;
      }
      if desiredActive.Some? {
        ObserveConfirmed(desiredActive.value);
      } else {
        value := Unknown;
      }
    }

    method StatusUnavailableFallback() returns (status: Fallback)
      ensures status == UnavailableFallback(value)
    {
      status := if value == Stopped then NoIntent else Recovering;
    }
  }

  class StartStopCoordinator {
    var epoch: nat
    var projectionEpoch: nat
    var observationSequence: nat
    var appliedObservationSequence: nat
    var pendingProjection: Pending

    function View(projection: DesiredActiveProjection): State
      reads this, projection
    {
      State(epoch, projectionEpoch, observationSequence, appliedObservationSequence, pendingProjection,
            projection.value)
    }

    constructor ()
      ensures epoch == projectionEpoch == observationSequence == appliedObservationSequence == 0
      ensures pendingProjection == Stable
    {
      epoch, projectionEpoch := 0, 0;
      observationSequence, appliedObservationSequence := 0, 0;
      pendingProjection := Stable;
    }

    method StartTicket(ghost projection: DesiredActiveProjection) returns (ticket: nat)
      ensures ticket == epoch
      ensures View(projection) == Next(View(projection), TakeStartTicket)
    {
      ticket := epoch;
    }

    method ProjectionTicket(ghost projection: DesiredActiveProjection) returns (ticket: ObservationTicket)
      modifies this
      ensures View(projection) == Next(old(View(projection)), TakeObservation)
      ensures ticket == ObservationTicket(projectionEpoch, observationSequence)
    {
      observationSequence := observationSequence + 1;
      ticket := ObservationTicket(projectionEpoch, observationSequence);
    }

    method NextProjectionTicket() returns (ticket: nat)
      modifies this`projectionEpoch
      ensures ticket == projectionEpoch == old(projectionEpoch) + 1
    {
      projectionEpoch := projectionEpoch + 1;
      ticket := projectionEpoch;
    }

    predicate ProjectionIsCurrent(ticket: nat)
      reads this
    {
      ticket == projectionEpoch
    }

    predicate ProjectionObservationIsCurrent(ticket: ObservationTicket)
      reads this
    {
      ticket.projectionEpoch == projectionEpoch && ticket.observationSequence >= appliedObservationSequence
    }

    predicate IsCurrent(start: nat)
      reads this
    {
      start == epoch
    }

    method BeginProjectedStart(start: nat, projection: DesiredActiveProjection) returns (ticket: Option<nat>)
      modifies this, projection
      ensures View(projection) == Next(old(View(projection)), PollStart(start))
      ensures ticket == if Accepts(old(View(projection)), PollStart(start)) then Some(projectionEpoch) else None
    {
      if !IsCurrent(start) {
        return None;
      }
      var next := NextProjectionTicket();
      pendingProjection := Starting;
      projection.ObserveSnapshot(true, None);
      ticket := Some(next);
    }

    method CommitProjectedStart(start: nat, ticket: nat, projection: DesiredActiveProjection, desiredActive: bool)
      returns (committed: bool)
      modifies this, projection
      ensures View(projection) == Next(old(View(projection)), CommitStart(start, ticket, desiredActive))
      ensures committed == Accepts(old(View(projection)), CommitStart(start, ticket, desiredActive))
    {
      if !IsCurrent(start) {
        return false;
      }
      if !ProjectionIsCurrent(ticket) {
        return false;
      }
      projection.ObserveConfirmed(desiredActive);
      pendingProjection := Stable;
      var _ := NextProjectionTicket();
      committed := true;
    }

    method DispatchProjectedStop(ghost projection: DesiredActiveProjection) returns (ticket: nat)
      modifies this
      ensures View(projection) == Next(old(View(projection)), Event.DispatchStop)
      ensures ticket == projectionEpoch
    {
      epoch := epoch + 1;
      ticket := NextProjectionTicket();
      pendingProjection := Stopping;
    }

    method DispatchProjectedClear(ghost projection: DesiredActiveProjection) returns (ticket: nat)
      modifies this
      ensures View(projection) == Next(old(View(projection)), Event.DispatchClear)
      ensures ticket == projectionEpoch
    {
      epoch := epoch + 1;
      ticket := NextProjectionTicket();
      pendingProjection := Stopping;
    }

    method DispatchProjectedToggle(projection: DesiredActiveProjection) returns (ticket: nat)
      modifies this, projection
      ensures View(projection) == Next(old(View(projection)), Event.DispatchToggle)
      ensures ticket == projectionEpoch
    {
      ticket := NextProjectionTicket();
      pendingProjection := Toggling;
      projection.ObserveSnapshot(true, None);
    }

    method CommitProjectedAction(ticket: nat, projection: DesiredActiveProjection, desiredActive: bool)
      returns (committed: bool)
      modifies this, projection
      ensures View(projection) == Next(old(View(projection)), CommitAction(ticket, desiredActive))
      ensures committed == Accepts(old(View(projection)), CommitAction(ticket, desiredActive))
    {
      if !ProjectionIsCurrent(ticket) {
        return false;
      }
      projection.ObserveConfirmed(desiredActive);
      pendingProjection := Stable;
      var _ := NextProjectionTicket();
      committed := true;
    }

    method FinishProjectedAction(ticket: nat, ghost projection: DesiredActiveProjection)
      modifies this
      ensures View(projection) == Next(old(View(projection)), FinishAction(ticket))
    {
      if ProjectionIsCurrent(ticket) {
        pendingProjection := Stable;
        var _ := NextProjectionTicket();
      }
    }

    method ObserveProjectedStatus(ticket: ObservationTicket, projection: DesiredActiveProjection, desiredActive: bool)
      returns (accepted: bool)
      modifies this, projection
      ensures View(projection) == Next(old(View(projection)), ObserveStatus(ticket, desiredActive))
      ensures accepted == Accepts(old(View(projection)), ObserveStatus(ticket, desiredActive))
    {
      if !ProjectionObservationIsCurrent(ticket) {
        return false;
      }
      if !MatchesPending(pendingProjection, Some(desiredActive)) {
        return false;
      }
      projection.ObserveConfirmed(desiredActive);
      appliedObservationSequence := ticket.observationSequence;
      accepted := true;
    }

    method ObserveProjectedSnapshot(ticket: ObservationTicket, projection: DesiredActiveProjection,
                                    changed: bool, desiredActive: Option<bool>)
      returns (accepted: bool)
      modifies this, projection
      ensures View(projection) == Next(old(View(projection)), Event.ObserveSnapshot(ticket, changed, desiredActive))
      ensures accepted == Accepts(old(View(projection)), Event.ObserveSnapshot(ticket, changed, desiredActive))
    {
      if !changed {
        return true;
      }
      if !ProjectionObservationIsCurrent(ticket) {
        return false;
      }
      if !MatchesPending(pendingProjection, desiredActive) {
        return false;
      }
      appliedObservationSequence := ticket.observationSequence;
      projection.ObserveSnapshot(true, desiredActive);
      accepted := true;
    }

    method FinalizeProjectedStatus(ticket: ObservationTicket, projection: DesiredActiveProjection,
                                   desiredActive: Option<bool>)
      returns (statusIsCurrent: bool, fallback: Fallback)
      modifies this, projection
      ensures View(projection) == Next(old(View(projection)), FinalizeStatus(ticket, desiredActive))
      ensures statusIsCurrent == Accepts(old(View(projection)), FinalizeStatus(ticket, desiredActive))
      ensures fallback == UnavailableFallback(projection.value)
    {
      var observationIsCurrent := ProjectionObservationIsCurrent(ticket);
      statusIsCurrent :=
        observationIsCurrent && desiredActive.Some? && MatchesPending(pendingProjection, desiredActive);
      if statusIsCurrent {
        projection.ObserveConfirmed(desiredActive.value);
      }
      if observationIsCurrent && (desiredActive.None? || statusIsCurrent) {
        appliedObservationSequence := ticket.observationSequence;
      }
      fallback := projection.StatusUnavailableFallback();
    }
  }

  /** What polling the wrapped native request gives. */
  datatype Inner = StillPending | Acknowledged | Rejected

  datatype Poll = NotReady | Ready(action: nat) | Cancelled | Failed

  /** The future of a Start that leaves the projection alone; only its first poll may be cancelled. */
  class StartSideEffect {
    const ticket: nat
    var firstPoll: bool

    constructor (ticket: nat)
      ensures this.ticket == ticket && firstPoll
    {
      this.ticket := ticket;
      firstPoll := true;
    }

    /** The first poll is a `PollSideEffect`; once it passed, no Stop can cancel the request any more. */
    method PollOnce(coordinator: StartStopCoordinator, ghost projection: DesiredActiveProjection, inner: Inner)
      returns (polled: Option<Inner>)
      modifies this
      ensures coordinator.View(projection) == old(coordinator.View(projection))
      ensures polled == if old(firstPoll) && !Accepts(coordinator.View(projection), PollSideEffect(ticket))
                        then None else Some(inner)
      ensures firstPoll == (old(firstPoll) && polled.None?)
    {
      if firstPoll {
        if !coordinator.IsCurrent(ticket) {
          return None;
        }
        firstPoll := false;
      }
      polled := Some(inner);
    }
  }

  /** The future that begins a projected Start on its first poll. */
  class ProjectedStartSideEffect {
    const ticket: nat
    var projectionTicket: Option<nat>

    constructor (ticket: nat)
      ensures this.ticket == ticket && projectionTicket == None
    {
      this.ticket := ticket;
      projectionTicket := None;
    }

    /**
     `inner` is the wrapped future's answer. The first poll is a `PollStart`, followed without
     releasing the lock by a `FinishAction` when the request fails at once; a later poll is a
     `FinishAction` when it fails and touches nothing otherwise.
     */
    method PollOnce(coordinator: StartStopCoordinator, projection: DesiredActiveProjection, inner: Inner)
      returns (poll: Poll)
      modifies this, coordinator, projection
      ensures var before := old(coordinator.View(projection));
              var begun := if old(projectionTicket).None? then Next(before, PollStart(ticket)) else before;
              if old(projectionTicket).None? && !Accepts(before, PollStart(ticket)) then
                poll == Cancelled && projectionTicket == None && coordinator.View(projection) == before
              else
                var action :=
                  if old(projectionTicket).None? then begun.projectionEpoch else old(projectionTicket).value;
                && projectionTicket == Some(action)
                && coordinator.View(projection) ==
                     (if inner.Rejected? then Next(begun, FinishAction(action)) else begun)
                && poll == match inner
                           case StillPending => NotReady
                           case Acknowledged => Ready(action)
                           case Rejected => Failed
    {
      if projectionTicket.None? {
        var begun := coordinator.BeginProjectedStart(ticket, projection);
        if begun.None? {
          return Cancelled;
        }
        projectionTicket := begun;
      }
      match inner
      case StillPending => poll := NotReady;
      case Acknowledged => poll := Ready(projectionTicket.value);
      case Rejected =>
        coordinator.FinishProjectedAction(projectionTicket.value, projection);
        poll := Failed;
    }
  }
}
