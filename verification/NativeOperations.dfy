/**
 The common owner's fence around native operations: what must hold between the helper's
 acknowledged stop of the tunnel and the hand-over to an installer or the exit of the process.
 Every event is a section that holds the operation lock, or a change the owner does not control.
 */
module NativeOperations {
  import opened Wrappers

  /** The journal's proof of a stop for one update operation. */
  type Proof = nat

  datatype Replacement = Replacement(proof: Proof, installed: bool)

  /**
   `tunnelRunning` and `childAlive` are facts of the world, the rest are the owner's fields.
   `handedOver` and `exiting` say that an installer was launched and that the exit was requested.
   */
  datatype State = State(replacement: Option<Replacement>, observedHelperStop: bool, finishing: bool,
                         tunnelRunning: bool, childAlive: bool, handedOver: bool, exiting: bool)

  const LAUNCHED := State(None, false, false, false, true, false, false)

  /** Requests a runtime sends to the engine; only the first two can make the tunnel run. */
  datatype Request = Start | RebindUdp | Stop | Query

  datatype Event =
    /** `blocked`: the journal's answer, if any; `takesEffect`: whether the engine did what was asked. */
    | Exchange(request: Request, blocked: Option<bool>, takesEffect: bool)
    | StopLocal(acknowledged: bool)
    | BeginInstallation(stopProof: Option<Proof>)
    | InstallationSucceeded(proof: Proof, current: Option<Proof>)
    | HandOver(proof: Proof, current: Option<Proof>, terminated: bool)
    | EnterFinish
    | Finish(terminated: bool, journal: Option<Proof>, acknowledged: bool, leaves: bool)
    | ChildExits
    | TunnelStops

  predicate StartIsFenced(s: State, updatePending: bool) {
    updatePending || s.replacement.Some?
  }

  /** Whether the live receipt and the journal together prove the installed update. */
  predicate RestartProven(s: State, journal: Option<Proof>) {
    && s.observedHelperStop
    && s.replacement.Some? && s.replacement.value.installed
    && journal == Some(s.replacement.value.proof)
  }

  predicate Accepts(s: State, e: Event) {
    match e
    case Exchange(request, blocked, _) =>
      request == Start || request == RebindUdp ==>
        blocked.Some? && !StartIsFenced(s, blocked.value || !s.childAlive)
    case StopLocal(acknowledged) => acknowledged
    case BeginInstallation(stopProof) =>
      && s.observedHelperStop && stopProof.Some?
      && (s.replacement.Some? ==> s.replacement.value.proof == stopProof.value)
    case InstallationSucceeded(proof, current) =>
      current == Some(proof) && s.replacement.Some? && s.replacement.value.proof == proof
    case HandOver(proof, current, terminated) =>
      terminated && s.observedHelperStop && s.replacement == Some(Replacement(proof, false)) && current == Some(proof)
    case EnterFinish => !s.finishing
    case Finish(terminated, journal, acknowledged, leaves) =>
      s.finishing && terminated && (RestartProven(s, journal) || acknowledged) && leaves
    case ChildExits => true
    case TunnelStops => true
  }

  function Next(s: State, e: Event): State {
    match e
    case Exchange(request, _, takesEffect) =>
      if !Accepts(s, e) then s
      else if request == Start || request == RebindUdp then
        s.(observedHelperStop := false, tunnelRunning := s.tunnelRunning || takesEffect)
      else s.(tunnelRunning := s.tunnelRunning && !(request == Stop && takesEffect))
    case StopLocal(acknowledged) =>
      s.(observedHelperStop := acknowledged, tunnelRunning := s.tunnelRunning && !acknowledged)
    case BeginInstallation(stopProof) =>
      if Accepts(s, e) then s.(replacement := Some(Replacement(stopProof.value, false))) else s
    case InstallationSucceeded(proof, _) =>
      if Accepts(s, e) then s.(replacement := Some(Replacement(proof, true))) else s
    case HandOver(_, _, terminated) =>
      s.(childAlive := s.childAlive && !terminated, handedOver := s.handedOver || Accepts(s, e))
    case EnterFinish => s.(finishing := true)
    case Finish(terminated, journal, acknowledged, leaves) =>
      if !s.finishing then s
      else
        var skipsStop := RestartProven(s, journal);
        var stopped := terminated && (skipsStop || acknowledged);
        s.(childAlive := s.childAlive && !terminated,
           tunnelRunning := s.tunnelRunning && !(terminated && !skipsStop && acknowledged),
           finishing := stopped && leaves,
           exiting := s.exiting || (stopped && leaves))
    case ChildExits => s.(childAlive := false)
    case TunnelStops => s.(tunnelRunning := false)
  }

  /** What the tunnel's history looks like from the owner: admitted starts and acknowledged stops. */
  datatype Mark = Admitted | Acknowledged

  function Marks(s: State, e: Event): seq<Mark> {
    match e
    case Exchange(request, _, _) =>
      if Accepts(s, e) && (request == Start || request == RebindUdp) then [Admitted] else []
    case StopLocal(acknowledged) => if acknowledged then [Acknowledged] else []
    case Finish(terminated, journal, acknowledged, _) =>
      if s.finishing && terminated && !RestartProven(s, journal) && acknowledged then [Acknowledged] else []
    case _ => []
  }

  datatype History = History(state: State, marks: seq<Mark>)

  /** No Start or Rebind was admitted since the last acknowledged stop, and there was one. */
  predicate Quiet(marks: seq<Mark>) {
    marks != [] && marks[|marks| - 1] == Acknowledged
  }

  function After(h: History, e: Event): History {
    History(Next(h.state, e), h.marks + Marks(h.state, e))
  }

  ghost predicate IsRun(hs: seq<History>, es: seq<Event>) {
    && |hs| == |es| + 1
    && hs[0].marks == [] && hs[0].state == LAUNCHED.(tunnelRunning := hs[0].state.tunnelRunning)
    && forall i :: 0 <= i < |es| ==> hs[i + 1] == After(hs[i], es[i])
  }

  ghost predicate Inv(h: History) {
    var s := h.state;
    && (s.observedHelperStop || s.replacement.Some? || s.handedOver ==> Quiet(h.marks))
    && (Quiet(h.marks) || s.exiting ==> !s.tunnelRunning)
    && (s.exiting || s.handedOver ==> !s.childAlive)
  }

  lemma StepKeepsInv(h: History, e: Event)
    requires Inv(h)
    ensures Inv(After(h, e))
  {
  }

  /** In every reachable state a receipt or a replacement means no start since the acknowledged stop. */
  lemma {:induction false} ReceiptMeansQuiet(hs: seq<History>, es: seq<Event>, i: nat)
    requires IsRun(hs, es) && i < |hs|
    ensures Inv(hs[i])
    ensures hs[i].state.observedHelperStop || hs[i].state.replacement.Some? ==>
              Quiet(hs[i].marks) && !hs[i].state.tunnelRunning
  {
    if i > 0 {
      ReceiptMeansQuiet(hs, es, i - 1);
      StepKeepsInv(hs[i - 1], es[i - 1]);
    }
  }

  /** From the begin of an installation, the launch of an installer or the exit on, there is no way back. */
  predicate Committed(s: State) {
    s.replacement.Some? || s.handedOver || s.exiting
  }

  /** The steps that must not meet a running tunnel never do, and each commits the owner. */
  lemma CriticalStepsFindTunnelStopped(hs: seq<History>, es: seq<Event>, i: nat)
    requires IsRun(hs, es) && i < |es| && Accepts(hs[i].state, es[i])
    requires es[i].BeginInstallation? || es[i].InstallationSucceeded? || es[i].HandOver? || es[i].Finish?
    ensures !hs[i + 1].state.tunnelRunning && Committed(hs[i + 1].state)
    ensures !es[i].Finish? ==> !hs[i].state.tunnelRunning && Quiet(hs[i].marks)
  {
    ReceiptMeansQuiet(hs, es, i);
    ReceiptMeansQuiet(hs, es, i + 1);
  }

  lemma StepKeepsCommitted(h: History, e: Event)
    requires Inv(h) && Committed(h.state)
    ensures Committed(After(h, e).state) && Admitted !in Marks(h.state, e)
  {
  }

  lemma {:induction false} StaysCommitted(hs: seq<History>, es: seq<Event>, i: nat, j: nat)
    requires IsRun(hs, es) && i <= j < |hs| && Committed(hs[i].state)
    ensures Committed(hs[j].state)
    decreases j - i
  {
    if i < j {
      StaysCommitted(hs, es, i, j - 1);
      ReceiptMeansQuiet(hs, es, j - 1);
      StepKeepsCommitted(hs[j - 1], es[j - 1]);
      assert hs[j] == After(hs[j - 1], es[j - 1]);
    }
  }

  /** A committed owner admits nothing more, and the tunnel stays down. */
  lemma CommittedIsForGood(hs: seq<History>, es: seq<Event>, i: nat, j: nat)
    requires IsRun(hs, es) && i <= j < |hs| && Committed(hs[i].state)
    ensures !hs[j].state.tunnelRunning
    ensures j < |es| ==> Admitted !in Marks(hs[j].state, es[j])
  {
    StaysCommitted(hs, es, i, j);
    ReceiptMeansQuiet(hs, es, j);
    if j < |es| {
      StepKeepsCommitted(hs[j], es[j]);
    }
  }

  predicate AdmitsStart(s: State, e: Event) {
    e.Exchange? && (e.request == Start || e.request == RebindUdp) && Accepts(s, e)
  }

  /** The event takes the receipt away: an admitted Start or Rebind, or a stop the helper did not acknowledge. */
  predicate DropsReceipt(s: State, e: Event) {
    AdmitsStart(s, e) || e == StopLocal(false)
  }

  lemma ReceiptAfter(s: State, e: Event)
    ensures Next(s, e).observedHelperStop <==> e == StopLocal(true) || (s.observedHelperStop && !DropsReceipt(s, e))
  {
  }

  /** The receipt stands exactly while nothing took it away since a stop the helper acknowledged. */
  lemma {:induction false} ReceiptStandsExactly(hs: seq<History>, es: seq<Event>, j: nat)
    requires IsRun(hs, es) && j < |hs|
    ensures hs[j].state.observedHelperStop <==>
              exists k :: 0 <= k < j && es[k] == StopLocal(true)
                          && forall m :: k < m < j ==> !DropsReceipt(hs[m].state, es[m])
  {
    if j > 0 {
      ReceiptStandsExactly(hs, es, j - 1);
      ReceiptAfter(hs[j - 1].state, es[j - 1]);
      if es[j - 1] != StopLocal(true) && hs[j].state.observedHelperStop {
        var k :| 0 <= k < j - 1 && es[k] == StopLocal(true)
                 && forall m :: k < m < j - 1 ==> !DropsReceipt(hs[m].state, es[m]);
        assert forall m :: k < m < j ==> !DropsReceipt(hs[m].state, es[m]);
      }
    }
  }

  /** A replacement stays, with its proof, and becomes installed only when the installation is recorded. */
  lemma ReplacementAfter(s: State, e: Event)
    ensures var r, r' := s.replacement, Next(s, e).replacement;
            && (r.Some? ==> r'.Some? && r'.value.proof == r.value.proof)
            && (r'.Some? && r'.value.installed ==>
                  r' == r || (e.InstallationSucceeded? && Accepts(s, e) && e.proof == r'.value.proof))
  {
  }

  lemma ReplacementAtNext(hs: seq<History>, es: seq<Event>, k: nat)
    requires IsRun(hs, es) && k < |es|
    ensures var r, r' := hs[k].state.replacement, hs[k + 1].state.replacement;
            && (r.Some? ==> r'.Some? && r'.value.proof == r.value.proof)
            && (r'.Some? && r'.value.installed ==>
                  || r' == r
                  || (es[k].InstallationSucceeded? && Accepts(hs[k].state, es[k]) && es[k].proof == r'.value.proof))
  {
    ReplacementAfter(hs[k].state, es[k]);
  }

  lemma {:induction false} ProofStands(hs: seq<History>, i: nat, j: nat)
    requires i <= j < |hs| && hs[i].state.replacement.Some?
    requires forall k :: i <= k < j && hs[k].state.replacement.Some? ==>
               hs[k + 1].state.replacement.Some?
               && hs[k + 1].state.replacement.value.proof == hs[k].state.replacement.value.proof
    ensures hs[j].state.replacement.Some?
    ensures hs[j].state.replacement.value.proof == hs[i].state.replacement.value.proof
    decreases j - i
  {
    if i < j {
      ProofStands(hs, i, j - 1);
      assert hs[j - 1 + 1].state.replacement.Some?;
    }
  }

  /** The first update operation to begin an installation is the only one: its proof never changes. */
  lemma UpdateOperationIsFixed(hs: seq<History>, es: seq<Event>, i: nat, j: nat)
    requires IsRun(hs, es) && i <= j < |hs| && hs[i].state.replacement.Some?
    ensures hs[j].state.replacement.Some?
    ensures hs[j].state.replacement.value.proof == hs[i].state.replacement.value.proof
  {
    forall k | i <= k < j && hs[k].state.replacement.Some?
      ensures hs[k + 1].state.replacement.Some?
      ensures hs[k + 1].state.replacement.value.proof == hs[k].state.replacement.value.proof
    {
      ReplacementAtNext(hs, es, k);
    }
    ProofStands(hs, i, j);
  }

  lemma {:induction false} InstalledMeansRecorded(hs: seq<History>, es: seq<Event>, j: nat)
    requires IsRun(hs, es) && j < |hs| && hs[j].state.replacement.Some? && hs[j].state.replacement.value.installed
    ensures exists k :: 0 <= k < j && es[k].InstallationSucceeded? && Accepts(hs[k].state, es[k])
                        && es[k].proof == hs[j].state.replacement.value.proof
  {
    assert j > 0;
    ReplacementAtNext(hs, es, j - 1);
    if hs[j - 1].state.replacement == hs[j].state.replacement {
      InstalledMeansRecorded(hs, es, j - 1);
    }
  }

  /** Leaving without another stop happens only for the update whose installation was recorded. */
  lemma StopSkippedOnlyAfterInstallation(hs: seq<History>, es: seq<Event>, j: nat, journal: Option<Proof>)
    requires IsRun(hs, es) && j < |hs| && RestartProven(hs[j].state, journal)
    ensures exists k :: 0 <= k < j && es[k].InstallationSucceeded? && Accepts(hs[k].state, es[k])
                        && journal == Some(es[k].proof)
    ensures !hs[j].state.tunnelRunning
  {
    InstalledMeansRecorded(hs, es, j);
    ReceiptMeansQuiet(hs, es, j);
  }

  // ---------------------------------------------------------------------------
  // The owner
  // ---------------------------------------------------------------------------

  class CommonOwner {
    var replacement: Option<Replacement>
    var observedHelperStop: bool
    var finishing: bool
    var tunnelRunning: bool
    var childAlive: bool
    var handedOver: bool
    var exiting: bool

    function View(): State
      reads this
    {
      State(replacement, observedHelperStop, finishing, tunnelRunning, childAlive, handedOver, exiting)
    }

    constructor (running: bool)
      ensures View() == LAUNCHED.(tunnelRunning := running)
    {
      replacement, observedHelperStop, finishing := None, false, false;
      tunnelRunning, childAlive, handedOver, exiting := running, true, false, false;
    }

    method BeginStart(updatePending: bool) returns (admitted: bool)
      modifies this`observedHelperStop
      ensures admitted <==> !StartIsFenced(old(View()), updatePending)
      ensures observedHelperStop == (old(observedHelperStop) && !admitted)
    {
      if updatePending || replacement.Some? {
        return false;
      }
      observedHelperStop := false;
      admitted := true;
    }

    method HelperStop(acknowledged: bool)
      modifies this`tunnelRunning
      ensures tunnelRunning == (old(tunnelRunning) && !acknowledged)
    {
      if acknowledged {
        tunnelRunning := false;
      }
    }

    method EngineExchange(request: Request, blocked: Option<bool>, takesEffect: bool) returns (sent: bool)
      modifies this
      ensures View() == Next(old(View()), Exchange(request, blocked, takesEffect))
      ensures sent == Accepts(old(View()), Exchange(request, blocked, takesEffect))
    {
      if request == Start || request == RebindUdp {
        if blocked.None? {
          return false;
        }
        var admitted := BeginStart(blocked.value || !childAlive);
        if !admitted {
          return false;
        }
        tunnelRunning := tunnelRunning || takesEffect;
      } else if request == Stop {
        tunnelRunning := tunnelRunning && !takesEffect;
      }
      sent := true;
    }

    method StopLocally(acknowledged: bool) returns (stopped: bool)
      modifies this
      ensures View() == Next(old(View()), StopLocal(acknowledged))
      ensures stopped == Accepts(old(View()), StopLocal(acknowledged))
    {
      observedHelperStop := false;
      HelperStop(acknowledged);
      if !acknowledged {
        return false;
      }
      observedHelperStop := true;
      stopped := true;
    }

    method BeginInstall(stopProof: Option<Proof>) returns (begun: Option<Proof>)
      modifies this
      ensures View() == Next(old(View()), BeginInstallation(stopProof))
      ensures begun == if Accepts(old(View()), BeginInstallation(stopProof)) then stopProof else None
    {
      if !observedHelperStop {
        return None;
      }
      if stopProof.None? {
        return None;
      }
      if replacement.Some? && replacement.value.proof != stopProof.value {
        return None;
      }
      replacement := Some(Replacement(stopProof.value, false));
      begun := stopProof;
    }

    method InstallSucceeded(proof: Proof, current: Option<Proof>) returns (recorded: bool)
      modifies this
      ensures View() == Next(old(View()), InstallationSucceeded(proof, current))
      ensures recorded == Accepts(old(View()), InstallationSucceeded(proof, current))
    {
      if current != Some(proof) || replacement.None? || replacement.value.proof != proof {
        return false;
      }
      replacement := Some(Replacement(proof, true));
      recorded := true;
    }

    method HandOverToInstaller(proof: Proof, current: Option<Proof>, terminated: bool) returns (launched: bool)
      modifies this
      ensures View() == Next(old(View()), HandOver(proof, current, terminated))
      ensures launched == Accepts(old(View()), HandOver(proof, current, terminated))
    {
      if !terminated {
        return false;
      }
      childAlive := false;
      if !observedHelperStop || replacement != Some(Replacement(proof, false)) || current != Some(proof) {
        return false;
      }
      handedOver := true;
      launched := true;
    }

    /** `journal` is the journal's proof in the phase after the installer was opened. */
    method RestartProof(journal: Option<Proof>) returns (proven: bool)
      ensures proven == RestartProven(View(), journal)
    {
      if !observedHelperStop {
        return false;
      }
      if replacement.None? || !replacement.value.installed {
        return false;
      }
      proven := journal == Some(replacement.value.proof);
    }

    method FinishOnce(terminated: bool, journal: Option<Proof>, acknowledged: bool, leaves: bool)
      modifies this
      ensures View() == (if old(finishing) then old(View())
                         else Next(Next(old(View()), EnterFinish), Finish(terminated, journal, acknowledged, leaves)))
    {
      if finishing {
        return;
      }
      finishing := true;
      var stopped := terminated;
      if terminated {
        childAlive := false;
        var proven := RestartProof(journal);
        if !proven {
          HelperStop(acknowledged);
          stopped := acknowledged;
        }
      }
      if !stopped {
        finishing := false;
        return;
      }
      if leaves {
        exiting := true;
      } else {
        finishing := false;
      }
    }
  }
}
