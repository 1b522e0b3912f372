/**
 The Android start/stop projection coordinator.

 User actions (Start, Stop, Toggle, Clear) and status polls run concurrently. Each
 takes a ticket, and the answer to it may come back at any later time. Every section
 of the coordinator that holds its lock is one atomic event here.
 */
module Coordinator {
  import opened Wrappers

  /** What the user interface believes the user wants. */
  datatype Projection = Unknown | Stopped | Active

  /** The action whose acknowledgement the projection is waiting for. */
  datatype Pending = Stable | Stopping | Starting | Toggling

  /** What a status request reports when the service does not answer. */
  datatype Fallback = NoIntent | Recovering

  datatype ObservationTicket = ObservationTicket(projectionEpoch: nat, observationSequence: nat)

  function Confirmed(desiredActive: bool): Projection {
    if desiredActive then Active else Stopped
  }

  function Snapshot(desiredActive: Option<bool>): Projection {
    if desiredActive.Some? then Confirmed(desiredActive.value) else Unknown
  }

  function UnavailableFallback(projection: Projection): Fallback {
    if projection == Stopped then NoIntent else Recovering
  }

  predicate MatchesPending(pending: Pending, desiredActive: Option<bool>) {
    match pending
    case Stable => true
    case Stopping => desiredActive == Some(false)
    case Starting => desiredActive == Some(true)
    case Toggling => false
  }

  /** The coordinator's counters together with the projection it guards. */
  datatype State = State(epoch: nat, projectionEpoch: nat, observationSequence: nat,
                         appliedSequence: nat, pending: Pending, projection: Projection)
  {
    predicate ObservationIsCurrent(ticket: ObservationTicket) {
      && ticket.projectionEpoch == projectionEpoch
      && ticket.observationSequence >= appliedSequence
    }
  }

  const INITIAL: State := State(0, 0, 0, 0, Stable, Unknown)

  /** One locked section of the coordinator, with the tickets its caller holds. */
  datatype Event =
    | TakeStartTicket
    | PollStart(start: nat)
    | PollSideEffect(start: nat)
    | PassFinalCheck(start: nat)
    | DispatchStop
    | DispatchClear
    | DispatchToggle
    | CommitStart(start: nat, action: nat, desiredActive: bool)
    | CommitAction(action: nat, desiredActive: bool)
    | FinishAction(action: nat)
    | TakeObservation
    | ObserveStatus(observation: ObservationTicket, desiredActive: bool)
    | ObserveSnapshot(observation: ObservationTicket, changed: bool, snapshot: Option<bool>)
    | FinalizeStatus(observation: ObservationTicket, status: Option<bool>)

  /** Whether the section reports success to its caller. */
  predicate Accepts(s: State, e: Event) {
    match e
    case PollStart(start) => start == s.epoch
    case PollSideEffect(start) => start == s.epoch
    case PassFinalCheck(start) => start == s.epoch
    case CommitStart(start, action, _) => start == s.epoch && action == s.projectionEpoch
    case CommitAction(action, _) => action == s.projectionEpoch
    case FinishAction(action) => action == s.projectionEpoch
    case ObserveStatus(o, desired) => s.ObservationIsCurrent(o) && MatchesPending(s.pending, Some(desired))
    case ObserveSnapshot(o, changed, snapshot) =>
      !changed || (s.ObservationIsCurrent(o) && MatchesPending(s.pending, snapshot))
    case FinalizeStatus(o, status) =>
      s.ObservationIsCurrent(o) && status.Some? && MatchesPending(s.pending, status)
    case _ => true
  }

  /** The state the section leaves behind. */
  function Next(s: State, e: Event): State {
    match e
    case PollStart(_) =>
      if Accepts(s, e)
      then s.(projectionEpoch := s.projectionEpoch + 1, pending := Starting, projection := Unknown) else s
    case DispatchStop =>
      s.(epoch := s.epoch + 1, projectionEpoch := s.projectionEpoch + 1, pending := Stopping)
    case DispatchClear =>
      s.(epoch := s.epoch + 1, projectionEpoch := s.projectionEpoch + 1, pending := Stopping)
    case DispatchToggle =>
      s.(projectionEpoch := s.projectionEpoch + 1, pending := Toggling, projection := Unknown)
    case CommitStart(_, _, desired) =>
      if Accepts(s, e)
      then s.(projectionEpoch := s.projectionEpoch + 1, pending := Stable, projection := Confirmed(desired)) else s
    case CommitAction(_, desired) =>
      if Accepts(s, e)
      then s.(projectionEpoch := s.projectionEpoch + 1, pending := Stable, projection := Confirmed(desired)) else s
    case FinishAction(_) =>
      if Accepts(s, e) then s.(projectionEpoch := s.projectionEpoch + 1, pending := Stable) else s
    case TakeObservation => s.(observationSequence := s.observationSequence + 1)
    case ObserveStatus(o, desired) =>
      if Accepts(s, e)
      then s.(projection := Confirmed(desired), appliedSequence := o.observationSequence) else s
    case ObserveSnapshot(o, changed, snapshot) =>
      if changed && Accepts(s, e)
      then s.(projection := Snapshot(snapshot), appliedSequence := o.observationSequence) else s
    case FinalizeStatus(o, status) =>
      if Accepts(s, e) then s.(projection := Confirmed(status.value), appliedSequence := o.observationSequence)
      else if s.ObservationIsCurrent(o) && status.None? then s.(appliedSequence := o.observationSequence)
      else s
    case _ => s
  }

  // ---------------------------------------------------------------------------
  // Histories: the state with everything its callers were given and did
  // ---------------------------------------------------------------------------

  datatype Kind = Start(ticket: nat) | Stop | Clear | Toggle

  datatype Outcome = Open | Committed | Finished

  /** A begun action: `before` is the projection just before it began. */
  datatype Action = Action(kind: Kind, before: Projection, outcome: Outcome)

  /** What justified a write of the projection. */
  datatype Source = AtBegin(epoch: nat) | AtObservation(epoch: nat, sequence: nat) | AtCommit(epoch: nat)

  datatype Write = Write(source: Source, value: Projection)

  /** A native request handed over while the lock was held. */
  datatype Dispatch = Dispatch(action: nat, kind: Kind)

  datatype History = History(state: State, starts: set<nat>, observations: set<ObservationTicket>,
                             actions: map<nat, Action>, writes: seq<Write>, dispatches: seq<Dispatch>)

  const FRESH: History := History(INITIAL, {}, {}, map[], [], [])

  /** The pending mark an action of this kind leaves. */
  function PendingOf(kind: Kind): Pending {
    match kind
    case Start(_) => Starting
    case Stop => Stopping
    case Clear => Stopping
    case Toggle => Toggling
  }

  /** Begin order: the start of an action, then its observations by sequence, then its commit. */
  predicate NotAfter(a: Source, b: Source) {
    || a.epoch < b.epoch
    || (a.epoch == b.epoch &&
        match a
        case AtBegin(_) => true
        case AtObservation(_, sequence) => b.AtCommit? || (b.AtObservation? && sequence <= b.sequence)
        case AtCommit(_) => b.AtCommit?)
  }

  /** Callers present only tickets they were given, and a Start presents the pair it began with. */
  predicate Enabled(h: History, e: Event) {
    match e
    case PollStart(start) => start in h.starts
    case PollSideEffect(start) => start in h.starts
    case PassFinalCheck(start) => start in h.starts
    case CommitStart(start, action, _) => action in h.actions && h.actions[action].kind == Start(start)
    case CommitAction(action, _) => action in h.actions
    case FinishAction(action) => action in h.actions
    case ObserveStatus(o, _) => o in h.observations
    case ObserveSnapshot(o, _, _) => o in h.observations
    case FinalizeStatus(o, _) => o in h.observations
    case _ => true
  }

  /** The action the event begins, when it begins one. */
  function Begins(s: State, e: Event): Option<Kind> {
    match e
    case PollStart(start) => if Accepts(s, e) then Some(Start(start)) else None
    case DispatchStop => Some(Stop)
    case DispatchClear => Some(Clear)
    case DispatchToggle => Some(Toggle)
    case _ => None
  }

  /** The write of the projection the event performs, when it performs one. */
  function Writes(s: State, e: Event): Option<Write> {
    match e
    case PollStart(_) =>
      if Accepts(s, e) then Some(Write(AtBegin(s.projectionEpoch + 1), Unknown)) else None
    case DispatchToggle => Some(Write(AtBegin(s.projectionEpoch + 1), Unknown))
    case CommitStart(_, action, desired) =>
      if Accepts(s, e) then Some(Write(AtCommit(action), Confirmed(desired))) else None
    case CommitAction(action, desired) =>
      if Accepts(s, e) then Some(Write(AtCommit(action), Confirmed(desired))) else None
    case ObserveStatus(o, desired) =>
      if Accepts(s, e) then Some(Write(Polled(o), Confirmed(desired))) else None
    case ObserveSnapshot(o, changed, snapshot) =>
      if changed && Accepts(s, e) then Some(Write(Polled(o), Snapshot(snapshot))) else None
    case FinalizeStatus(o, status) =>
      if Accepts(s, e) then Some(Write(Polled(o), Confirmed(status.value))) else None
    case _ => None
  }

  function Polled(o: ObservationTicket): Source {
    AtObservation(o.projectionEpoch, o.observationSequence)
  }

  /** The ticket the event tries to bring to its end, when it is a completion. */
  function Completes(e: Event): Option<nat> {
    match e
    case CommitStart(_, action, _) => Some(action)
    case CommitAction(action, _) => Some(action)
    case FinishAction(action) => Some(action)
    case _ => None
  }

  function Actions(h: History, e: Event): map<nat, Action>
    requires Enabled(h, e)
  {
    var begun := Begins(h.state, e);
    if begun.Some? then
      h.actions[h.state.projectionEpoch + 1 := Action(begun.value, h.state.projection, Open)]
    else if Completes(e).Some? && Accepts(h.state, e) then
      var action := Completes(e).value;
      h.actions[action := h.actions[action].(outcome := if e.FinishAction? then Finished else Committed)]
    else
      h.actions
  }

  function Advance(h: History, e: Event): History
    requires Enabled(h, e)
  {
    var s := h.state;
    var begun := Begins(s, e);
    var written := Writes(s, e);
    History(
      Next(s, e),
      if e.TakeStartTicket? then h.starts + {s.epoch} else h.starts,
      if e.TakeObservation?
      then h.observations + {ObservationTicket(s.projectionEpoch, s.observationSequence + 1)} else h.observations,
      Actions(h, e),
      if written.Some? then h.writes + [written.value] else h.writes,
      if begun.Some? then h.dispatches + [Dispatch(s.projectionEpoch + 1, begun.value)] else h.dispatches)
  }

  /** `hs` is the sequence of histories that the events `es` produce from a fresh coordinator. */
  ghost predicate IsRun(hs: seq<History>, es: seq<Event>) {
    && |hs| == |es| + 1
    && hs[0] == FRESH
    && forall i :: 0 <= i < |es| ==> Enabled(hs[i], es[i]) && hs[i + 1] == Advance(hs[i], es[i])
  }

  // ---------------------------------------------------------------------------
  // What every reachable history satisfies
  // ---------------------------------------------------------------------------

  ghost predicate TicketsWereIssued(h: History) {
    var s := h.state;
    && s.appliedSequence <= s.observationSequence
    && (forall start :: start in h.starts ==> start <= s.epoch)
    && (forall o :: o in h.observations ==>
          o.projectionEpoch <= s.projectionEpoch && o.observationSequence <= s.observationSequence)
    && (forall o, p :: o in h.observations && p in h.observations && o.observationSequence <= p.observationSequence
          ==> o.projectionEpoch <= p.projectionEpoch)
  }

  /** Pending is set exactly while the current projection epoch is an action that has not ended. */
  ghost predicate PendingIsTheOpenAction(h: History) {
    var s := h.state;
    && (forall a :: a in h.actions ==> 0 < a <= s.projectionEpoch)
    && (s.pending != Stable <==> s.projectionEpoch in h.actions)
    && (s.projectionEpoch in h.actions ==>
          && h.actions[s.projectionEpoch].outcome == Open
          && s.pending == PendingOf(h.actions[s.projectionEpoch].kind))
  }

  ghost predicate CurrentStartIsUncancelled(h: History) {
    var s := h.state;
    && (forall a :: a in h.actions && h.actions[a].kind.Start? ==> h.actions[a].kind.ticket <= s.epoch)
    && (s.projectionEpoch in h.actions && h.actions[s.projectionEpoch].kind.Start?
        ==> h.actions[s.projectionEpoch].kind.ticket == s.epoch)
  }

  ghost predicate PendingHoldsTheProjection(h: History) {
    var s := h.state;
    s.projectionEpoch in h.actions ==>
      match h.actions[s.projectionEpoch].kind
      case Start(_) => s.projection != Stopped
      case Toggle => s.projection == Unknown
      case _ => s.projection == h.actions[s.projectionEpoch].before || s.projection == Stopped
  }

  ghost predicate WritesAreInOrder(h: History) {
    && (forall i, j :: 0 <= i < j < |h.writes| ==> NotAfter(h.writes[i].source, h.writes[j].source))
    && (h.state.projection == if h.writes == [] then Unknown else h.writes[|h.writes| - 1].value)
  }

  /** What keeps the next write in order: nothing in the log is ahead of the counters. */
  ghost predicate WritesAreBehind(h: History) {
    forall i :: 0 <= i < |h.writes| ==>
      match h.writes[i].source
      case AtBegin(epoch) => epoch <= h.state.projectionEpoch
      case AtObservation(epoch, sequence) =>
        epoch <= h.state.projectionEpoch && sequence <= h.state.appliedSequence
      case AtCommit(epoch) => epoch < h.state.projectionEpoch
  }

  ghost predicate DispatchesAreInOrder(h: History) {
    && (forall i, j :: 0 <= i < j < |h.dispatches| ==> h.dispatches[i].action < h.dispatches[j].action)
    && (forall i :: 0 <= i < |h.dispatches| ==>
          h.dispatches[i].action in h.actions && h.actions[h.dispatches[i].action].kind == h.dispatches[i].kind)
  }

  ghost predicate Inv(h: History) {
    && TicketsWereIssued(h)
    && PendingIsTheOpenAction(h)
    && CurrentStartIsUncancelled(h)
    && PendingHoldsTheProjection(h)
    && WritesAreInOrder(h)
    && WritesAreBehind(h)
    && DispatchesAreInOrder(h)
  }

  lemma StepKeepsTickets(h: History, e: Event)
    requires Enabled(h, e) && TicketsWereIssued(h)
    ensures TicketsWereIssued(Advance(h, e))
  {
  }

  lemma StepKeepsPending(h: History, e: Event)
    requires Enabled(h, e) && PendingIsTheOpenAction(h)
    ensures PendingIsTheOpenAction(Advance(h, e))
  {
  }

  lemma StepKeepsCurrentStart(h: History, e: Event)
    requires Enabled(h, e) && PendingIsTheOpenAction(h) && CurrentStartIsUncancelled(h)
    ensures CurrentStartIsUncancelled(Advance(h, e))
  {
  }

  lemma StepKeepsProjection(h: History, e: Event)
    requires Enabled(h, e) && PendingIsTheOpenAction(h) && PendingHoldsTheProjection(h)
    ensures PendingHoldsTheProjection(Advance(h, e))
  {
  }

  lemma StepKeepsWrites(h: History, e: Event)
    requires Enabled(h, e) && WritesAreInOrder(h) && WritesAreBehind(h)
    ensures WritesAreInOrder(Advance(h, e))
  {
    var written := Writes(h.state, e);
    if written.Some? {
      forall i | 0 <= i < |h.writes|
        ensures NotAfter(h.writes[i].source, written.value.source)
      {
        NextWriteIsNotBehind(h, e, i);
      }
      assert Advance(h, e).writes == h.writes + [written.value];
    }
  }

  lemma NextWriteIsNotBehind(h: History, e: Event, i: nat)
    requires WritesAreBehind(h) && i < |h.writes| && Writes(h.state, e).Some?
    ensures NotAfter(h.writes[i].source, Writes(h.state, e).value.source)
  {
  }

  lemma StepKeepsWritesBehind(h: History, e: Event)
    requires Enabled(h, e) && WritesAreBehind(h)
    ensures WritesAreBehind(Advance(h, e))
  {
  }

  lemma StepKeepsDispatches(h: History, e: Event)
    requires Enabled(h, e) && PendingIsTheOpenAction(h) && DispatchesAreInOrder(h)
    ensures DispatchesAreInOrder(Advance(h, e))
  {
  }

  /** In every reachable history the whole invariant holds. */
  lemma {:induction false} RunKeepsInvariant(hs: seq<History>, es: seq<Event>, i: nat)
    requires IsRun(hs, es) && i < |hs|
    ensures Inv(hs[i])
  {
    if i > 0 {
      RunKeepsInvariant(hs, es, i - 1);
      StepKeepsTickets(hs[i - 1], es[i - 1]);
      StepKeepsPending(hs[i - 1], es[i - 1]);
      StepKeepsCurrentStart(hs[i - 1], es[i - 1]);
      StepKeepsProjection(hs[i - 1], es[i - 1]);
      StepKeepsWrites(hs[i - 1], es[i - 1]);
      StepKeepsWritesBehind(hs[i - 1], es[i - 1]);
      StepKeepsDispatches(hs[i - 1], es[i - 1]);
    }
  }

  // ---------------------------------------------------------------------------
  // Whole runs
  // ---------------------------------------------------------------------------

  /** Accepted writes never go backwards, and the projection is always the last of them. */
  lemma AcceptedWritesNeverGoBack(hs: seq<History>, es: seq<Event>, i: nat)
    requires IsRun(hs, es) && i < |hs|
    ensures forall j, k :: 0 <= j < k < |hs[i].writes| ==>
              NotAfter(hs[i].writes[j].source, hs[i].writes[k].source)
    ensures hs[i].state.projection == if hs[i].writes == [] then Unknown else hs[i].writes[|hs[i].writes| - 1].value
  {
    RunKeepsInvariant(hs, es, i);
  }

  /** Pending names the action holding the current projection epoch, exactly while it is open. */
  lemma PendingExactlyWhileOpen(hs: seq<History>, es: seq<Event>, i: nat)
    requires IsRun(hs, es) && i < |hs|
    ensures var h := hs[i]; var a := h.state.projectionEpoch;
            && (h.state.pending != Stable <==> a in h.actions && h.actions[a].outcome == Open)
            && (h.state.pending != Stable ==> h.state.pending == PendingOf(h.actions[a].kind))
  {
    RunKeepsInvariant(hs, es, i);
  }

  /** While an action is pending, no poll can move the projection out of what the action allows. */
  lemma PendingActionHoldsProjection(hs: seq<History>, es: seq<Event>, i: nat)
    requires IsRun(hs, es) && i < |hs| && hs[i].state.pending != Stable
    ensures var h := hs[i]; var a := h.state.projectionEpoch;
            && a in h.actions
            && (h.state.pending == Starting ==> h.state.projection != Stopped)
            && (h.state.pending == Toggling ==> h.state.projection == Unknown)
            && (h.state.pending == Stopping ==> h.state.projection in {h.actions[a].before, Stopped})
  {
    RunKeepsInvariant(hs, es, i);
  }

  /**
   When the service does not answer, no intent is reported exactly when the newest accepted answer was
   that none is wanted, and never while a Start or a Toggle is waiting for its acknowledgement.
   */
  lemma NoIntentOnlyAfterConfirmedStop(hs: seq<History>, es: seq<Event>, i: nat)
    requires IsRun(hs, es) && i < |hs|
    ensures var s := hs[i].state; var writes := hs[i].writes;
            && (UnavailableFallback(s.projection) == NoIntent <==>
                  writes != [] && writes[|writes| - 1].value == Stopped)
            && (UnavailableFallback(s.projection) == NoIntent ==>
                  !writes[|writes| - 1].source.AtBegin? && s.pending in {Stable, Stopping})
  {
    RunKeepsInvariant(hs, es, i);
    BeginsWriteUnknown(hs, es, i);
  }

  lemma {:induction false} BeginsWriteUnknown(hs: seq<History>, es: seq<Event>, i: nat)
    requires IsRun(hs, es) && i < |hs|
    ensures forall j :: 0 <= j < |hs[i].writes| && hs[i].writes[j].source.AtBegin? ==> hs[i].writes[j].value == Unknown
    decreases i
  {
    if i > 0 {
      BeginsWriteUnknown(hs, es, i - 1);
      assert hs[i] == Advance(hs[i - 1], es[i - 1]);
    }
  }

  /** Native requests leave in the strict order of the tickets they carry. */
  lemma DispatchesFollowTickets(hs: seq<History>, es: seq<Event>, i: nat)
    requires IsRun(hs, es) && i < |hs|
    ensures forall j, k :: 0 <= j < k < |hs[i].dispatches| ==> hs[i].dispatches[j].action < hs[i].dispatches[k].action
  {
    RunKeepsInvariant(hs, es, i);
  }

  /** The event moves the projection epoch, so every ticket issued before it is spent. */
  predicate MovesEpoch(s: State, e: Event) {
    Begins(s, e).Some? || (Completes(e).Some? && Accepts(s, e))
  }

  /** The event applies a poll newer than `o`, by its answer or by the lack of one. */
  predicate AppliesNewer(s: State, e: Event, o: ObservationTicket) {
    match e
    case ObserveStatus(p, _) => Accepts(s, e) && p.observationSequence > o.observationSequence
    case ObserveSnapshot(p, changed, _) => changed && Accepts(s, e) && p.observationSequence > o.observationSequence
    case FinalizeStatus(p, status) =>
      s.ObservationIsCurrent(p) && (status.None? || Accepts(s, e)) && p.observationSequence > o.observationSequence
    case _ => false
  }

  lemma {:induction false} CountersGrow(hs: seq<History>, es: seq<Event>, i: nat, j: nat)
    requires IsRun(hs, es) && i <= j < |hs|
    ensures hs[i].state.epoch <= hs[j].state.epoch
    ensures hs[i].state.projectionEpoch <= hs[j].state.projectionEpoch
    ensures hs[i].state.appliedSequence <= hs[j].state.appliedSequence
    decreases j - i
  {
    if i < j {
      CountersGrow(hs, es, i, j - 1);
    }
  }

  /** The epoch stays where it is exactly while nothing begins and nothing ends. */
  lemma {:induction false} EpochStandsExactly(hs: seq<History>, es: seq<Event>, i: nat, j: nat)
    requires IsRun(hs, es) && i <= j < |hs|
    ensures hs[j].state.projectionEpoch == hs[i].state.projectionEpoch
        <==> forall k :: i <= k < j ==> !MovesEpoch(hs[k].state, es[k])
    decreases j - i
  {
    if i < j {
      EpochStandsExactly(hs, es, i, j - 1);
      CountersGrow(hs, es, i, j - 1);
    }
  }

  /**
   A completion takes effect exactly when no other action began since its own did and it
   was not completed before: each ticket takes effect at most once, a superseded one never.
   */
  lemma {:induction false} CompletionAcceptedExactlyWhileLive(hs: seq<History>, es: seq<Event>, b: nat, k: nat)
    requires IsRun(hs, es) && b < k < |es|
    requires Begins(hs[b].state, es[b]).Some?
    requires Completes(es[k]) == Some(hs[b].state.projectionEpoch + 1)
    ensures Accepts(hs[k].state, es[k]) <==>
              forall j :: b < j < k ==>
                Begins(hs[j].state, es[j]).None? && Completes(es[j]) != Some(hs[b].state.projectionEpoch + 1)
    ensures !Accepts(hs[k].state, es[k]) ==> hs[k + 1] == hs[k]
  {
    var a := hs[b].state.projectionEpoch + 1;
    assert hs[b + 1].state.projectionEpoch == a;
    RunKeepsInvariant(hs, es, k);
    EpochStandsExactly(hs, es, b + 1, k);
    if hs[k].state.projectionEpoch == a {
      forall j | b < j < k
        ensures Completes(es[j]) != Some(a)
      {
        CountersGrow(hs, es, b + 1, j);
        CountersGrow(hs, es, j, k);
        RunKeepsInvariant(hs, es, j);
      }
    } else if forall j :: b < j < k ==> Begins(hs[j].state, es[j]).None? && Completes(es[j]) != Some(a) {
      OthersCannotComplete(hs, es, b, k);
    }
  }

  /** With nothing begun since, only a completion of the newest ticket itself can move the epoch. */
  lemma {:induction false} OthersCannotComplete(hs: seq<History>, es: seq<Event>, b: nat, k: nat)
    requires IsRun(hs, es) && b < k < |hs|
    requires Begins(hs[b].state, es[b]).Some?
    requires forall j :: b < j < k ==>
               Begins(hs[j].state, es[j]).None? && Completes(es[j]) != Some(hs[b].state.projectionEpoch + 1)
    ensures hs[k].state.projectionEpoch == hs[b].state.projectionEpoch + 1
  {
    if b + 1 < k {
      OthersCannotComplete(hs, es, b, k - 1);
    }
  }

  lemma PollCurrentAfter(s: State, e: Event, o: ObservationTicket)
    requires o.projectionEpoch <= s.projectionEpoch
    ensures Next(s, e).ObservationIsCurrent(o) <==>
              s.ObservationIsCurrent(o) && !MovesEpoch(s, e) && !AppliesNewer(s, e, o)
  {
  }

  /** A poll is current exactly while nothing began or ended and no newer poll was applied since its ticket. */
  lemma {:induction false} PollCurrentExactly(hs: seq<History>, es: seq<Event>, t: nat, k: nat, o: ObservationTicket)
    requires IsRun(hs, es) && t < k < |hs| && es[t] == TakeObservation
    requires o == ObservationTicket(hs[t].state.projectionEpoch, hs[t].state.observationSequence + 1)
    ensures hs[k].state.ObservationIsCurrent(o) <==>
              forall j :: t < j < k ==>
                !MovesEpoch(hs[j].state, es[j]) && !AppliesNewer(hs[j].state, es[j], o)
    decreases k
  {
    RunKeepsInvariant(hs, es, t);
    if t + 1 < k {
      PollCurrentExactly(hs, es, t, k - 1, o);
      CountersGrow(hs, es, t, k - 1);
      PollCurrentAfter(hs[k - 1].state, es[k - 1], o);
    }
  }

  /** What a poll may say while an action is open: nothing against it, and nothing about a Toggle. */
  predicate Agrees(h: History, desiredActive: Option<bool>) {
    h.state.projectionEpoch in h.actions ==>
      match h.actions[h.state.projectionEpoch].kind
      case Start(_) => desiredActive == Some(true)
      case Toggle => false
      case _ => desiredActive == Some(false)
  }

  /** A poll's answer is taken exactly when the poll is current and agrees with the open action. */
  lemma PollAcceptedExactly(hs: seq<History>, es: seq<Event>, t: nat, k: nat, o: ObservationTicket)
    requires IsRun(hs, es) && t < k < |es| && es[t] == TakeObservation
    requires o == ObservationTicket(hs[t].state.projectionEpoch, hs[t].state.observationSequence + 1)
    requires || (es[k].ObserveStatus? && es[k].observation == o)
             || (es[k].ObserveSnapshot? && es[k].observation == o && es[k].changed)
             || (es[k].FinalizeStatus? && es[k].observation == o && es[k].status.Some?)
    ensures var answer := match es[k]
                          case ObserveStatus(_, desired) => Some(desired)
                          case ObserveSnapshot(_, _, snapshot) => snapshot
                          case FinalizeStatus(_, status) => status
                          case _ => None;
            Accepts(hs[k].state, es[k]) <==>
              && Agrees(hs[k], answer)
              && forall j :: t < j < k ==> !MovesEpoch(hs[j].state, es[j]) && !AppliesNewer(hs[j].state, es[j], o)
  {
    PollCurrentExactly(hs, es, t, k, o);
    RunKeepsInvariant(hs, es, k);
  }

  predicate CancelsStarts(e: Event) {
    e.DispatchStop? || e.DispatchClear?
  }

  lemma {:induction false} StartEpochStandsExactly(hs: seq<History>, es: seq<Event>, i: nat, j: nat)
    requires IsRun(hs, es) && i <= j < |hs|
    ensures hs[j].state.epoch == hs[i].state.epoch <==> forall k :: i <= k < j ==> !CancelsStarts(es[k])
    decreases j - i
  {
    if i < j {
      StartEpochStandsExactly(hs, es, i, j - 1);
      CountersGrow(hs, es, i, j - 1);
    }
  }

  /**
   A Start passes its first poll, the poll of a plain side effect and its final check exactly
   when no Stop or Clear was dispatched since it took its ticket; and it commits only then.
   */
  lemma StartAdmittedExactlyUntilStopped(hs: seq<History>, es: seq<Event>, i: nat, k: nat, start: nat)
    requires IsRun(hs, es) && i < k < |es|
    requires es[i] == TakeStartTicket && start == hs[i].state.epoch
    ensures es[k] in {PollStart(start), PollSideEffect(start), PassFinalCheck(start)} ==>
              (Accepts(hs[k].state, es[k]) <==> forall j :: i < j < k ==> !CancelsStarts(es[j]))
    ensures es[k].CommitStart? && es[k].start == start && Accepts(hs[k].state, es[k]) ==>
              forall j :: i < j < k ==> !CancelsStarts(es[j])
    ensures !Accepts(hs[k].state, es[k]) && es[k] in {PollStart(start), PollSideEffect(start), PassFinalCheck(start)}
            ==> hs[k + 1] == hs[k]
  {
    assert hs[i + 1].state.epoch == start;
    StartEpochStandsExactly(hs, es, i + 1, k);
  }

  /** For a Start, the commit that also checks the start epoch is the commit that does not. */
  lemma CommitStartRefinesCommitAction(hs: seq<History>, es: seq<Event>, i: nat, action: nat, desiredActive: bool)
    requires IsRun(hs, es) && i < |hs|
    requires action in hs[i].actions && hs[i].actions[action].kind.Start?
    ensures var s := hs[i].state; var start := hs[i].actions[action].kind.ticket;
            var a, b := CommitStart(start, action, desiredActive), CommitAction(action, desiredActive);
            (Accepts(s, a) <==> Accepts(s, b)) && Next(s, a) == Next(s, b)
  {
    RunKeepsInvariant(hs, es, i);
  }
}
