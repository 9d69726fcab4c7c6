/** Which cancels outlive what they were meant for, and what they can still hit. */
module DaemonCancels {
  import opened Wire
  import opened Link
  import opened Coordinator
  import opened Daemon
  import opened DaemonHistory
  import opened DaemonRuns
  import Ledger = DaemonLedger
  import Slot = DaemonSlot
  import Waits = DaemonWaits

  /** The two stored permits, and the event that spends each. */
  datatype Target = TheGate | TheAuth

  predicate Permit(s: State, target: Target) {
    if target.TheGate? then s.coord.gatePermit else s.coord.authPermit
  }

  function Kill(target: Target, q: nat): Event {
    if target.TheGate? then GateKilled(q) else AuthKilled(q)
  }

  predicate IsKillOf(target: Target, e: Event) {
    if target.TheGate? then e.GateKilled? else e.AuthKilled?
  }

  // ---- Without a cancel no permit appears, and without a permit nothing is killed ----

  /** From `s` to `t` the log only grew, by no kill, and no permit appeared. */
  predicate Spares(s: State, t: State, target: Target) {
    && (Permit(t, target) ==> Permit(s, target)) && |s.log| <= |t.log| && t.log[..|s.log|] == s.log
    && forall k :: |s.log| <= k < |t.log| ==> !IsKillOf(target, t.log[k])
  }

  lemma SparesOn(s: State, t: State, u: State, target: Target)
    requires Spares(s, t, target) && Spares(t, u, target)
    ensures Spares(s, u, target)
  {
    assert u.log[..|s.log|] == t.log[..|s.log|];
    forall k | |s.log| <= k < |u.log| ensures !IsKillOf(target, u.log[k]) {
      if k < |t.log| {
        assert u.log[..|t.log|][k] == u.log[k];
      }
    }
  }

  /** A step that logs nothing, or one event that is no kill. */
  lemma SameSpares(s: State, t: State, target: Target)
    requires t.log == s.log && (Permit(t, target) ==> Permit(s, target))
    ensures Spares(s, t, target)
  {
  }

  lemma LogSpares(s: State, t: State, e: Event, target: Target)
    requires t.log == s.log + [e] && !IsKillOf(target, e) && (Permit(t, target) ==> Permit(s, target))
    ensures Spares(s, t, target)
  {
  }

  lemma SparesFrom(s: State, from: State, t: State, target: Target)
    requires Spares(from, t, target) && from.log == s.log && (Permit(from, target) ==> Permit(s, target))
    ensures Spares(s, t, target)
  {
  }

  lemma ClaimsSpare(s: State, r: nat, q: Request, target: Target)
    requires r < |s.requests|
    ensures Spares(s, CheckWindowStep(s, r, q), target) && Spares(s, ClaimStep(s, r, q), target) && Spares(s, EnqueueStep(s, r, q), target)
  {
    hide Admits;
  }

  lemma DecideSpares(s: State, r: nat, q: Request, ok: bool, target: Target)
    requires r < |s.requests|
    ensures Spares(s, Decide(s, r, q, ok), target)
  {
    hide Spares;
    if ok {
      LogSpares(s, Decide(s, r, q, ok), Accepted(r, q.kind), target);
    } else {
      SameSpares(s, Decide(s, r, q, ok), target);
    }
  }

  lemma DecisionsSpare(s: State, r: nat, q: Request, target: Target)
    requires r < |s.requests|
    ensures Spares(s, TakeReplyStep(s, r, q), target) && Spares(s, TakePendingStep(s, r, q), target)
  {
    hide Spares, Decide;
    SameSpares(s, s, target);
    SameSpares(s, Put(s, r, q.(phase := Finished)), target);
    SameSpares(s, Put(s, r, q.(phase := Decided(false))), target);
    DecideSpares(s, r, q, true, target);
    DecideSpares(s, r, q, false, target);
  }

  lemma EndingsSpare(s: State, r: nat, q: Request, target: Target)
    requires r < |s.requests|
    ensures Spares(s, ClearStep(s, r, q), target) && Spares(s, BridgeStep(s, r, q), target) && Spares(s, AnswerStep(s, r, q), target)
  {
    hide Arm;
  }

  lemma HandlersSpare(s: State, a: Action, target: Target)
    requires IsHandler(a) && !a.Cancel?
    ensures Spares(s, HandlerStep(s, a), target)
  {
    hide CheckWindowStep, ClaimStep, EnqueueStep, TakeReplyStep, TakePendingStep, ClearStep, BridgeStep, AnswerStep;
    if a.r < |s.requests| {
      ClaimsSpare(s, a.r, s.requests[a.r], target);
      DecisionsSpare(s, a.r, s.requests[a.r], target);
      EndingsSpare(s, a.r, s.requests[a.r], target);
    }
  }

  lemma ReturnsSpare(s: State, r: nat, ok: bool, target: Target)
    ensures Spares(s, Return(s, r, ok), target)
  {
  }

  lemma ClosesSpare(s: State, r: nat, ok: bool, target: Target)
    ensures Spares(s, ReturnPairing(s, r, ok), target) && Spares(s, CloseAuth(s, r, ok), target) && Spares(s, CloseGate(s, r, ok), target)
  {
    hide Return;
    ReturnsSpare(s.(coord := s.coord.(progress := if ok then Done else Failed)), r, ok, target);
    ReturnsSpare(s.(link := s.link.(authPending := false, auth := s.link.auth.Drop())), r, ok, target);
    var shut := s.(link := s.link.(gatePending := false, gate := s.link.gate.Drop()), coord := s.coord.(gateActive := false));
    ReturnsSpare(shut, r, ok, target);
    assert Spares(Return(shut, r, ok), Log(Return(shut, r, ok), GateClosed(r)), target);
    SparesOn(s, Return(shut, r, ok), CloseGate(s, r, ok), target);
  }

  lemma TransmitSpares(s: State, r: nat, written: bool, target: Target)
    ensures Spares(s, Transmit(s, r, written), target)
  {
    var armed := s.(link := s.link.(response := Oneshot(true, Waiting)));
    ReturnsSpare(armed, r, false, target);
    ClosesSpare(armed, r, false, target);
    hide Return, ReturnPairing;
  }

  lemma AnsweredSpares(s: State, r: nat, answer: Bytes, target: Target)
    ensures Spares(s, Answered(s, r, answer), target)
  {
    ReturnsSpare(s, r, true, target);
    ReturnsSpare(s, r, false, target);
    hide Return;
  }

  lemma ResolveSpares(s: State, target: Target)
    ensures Spares(s, ResolveStep(s), target)
  {
    hide Answered, CloseAuth, CloseGate;
    match s.pc
    case CommandWait(r) =>
      if s.link.response.rx.Got? {
        AnsweredSpares(s, r, s.link.response.rx.value, target);
      }
    case AuthWait(r) =>
      if s.link.auth.rx.Got? {
        ClosesSpare(s, r, s.link.auth.rx.value, target);
      }
    case GateWait(r) =>
      if s.link.gate.rx.Got? {
        ClosesSpare(s, r, s.link.gate.rx.value.passed, target);
      }
    case _ =>
  }

  lemma EndSpares(s: State, target: Target)
    ensures Spares(s, CloseStep(s), target) && Spares(s, ExpireStep(s), target)
  {
    SameSpares(s, s, target);
    if s.pc != Main {
      var r := s.pc.r;
      var dropped := s.(link := s.link.(response := s.link.response.Drop()));
      var ended := EndPairWaits(s).(link := EndPairWaits(s).link.(response := s.link.response.Drop()));
      hide Spares, Return, ReturnPairing, CloseAuth, CloseGate;
      ClosesSpare(s, r, false, target);
      ReturnsSpare(dropped, r, false, target);
      ClosesSpare(ended, r, false, target);
      SparesFrom(s, dropped, Return(dropped, r, false), target);
      SparesFrom(s, ended, ReturnPairing(ended, r, false), target);
      hide EndPairWaits;
    }
  }

  lemma PairingSpares(s: State, written: bool, ok: bool, target: Target)
    ensures Spares(s, PairAgainStep(s, written), target) && Spares(s, PairEndStep(s, ok), target)
  {
    SameSpares(s, s, target);
    hide Spares, Transmit, ReturnPairing;
    if InPairing(s) {
      var ended := EndPairWaits(s);
      TransmitSpares(ended, s.pc.r, written, target);
      ClosesSpare(ended, s.pc.r, ok, target);
      SparesFrom(s, ended, Transmit(ended, s.pc.r, written), target);
      SparesFrom(s, ended, ReturnPairing(ended, s.pc.r, ok), target);
      hide EndPairWaits;
    }
  }

  lemma PairWaitsSpare(s: State, secondHost: bool, target: Target)
    ensures Spares(s, PairButtonStep(s, secondHost), target) && Spares(s, PairFpStep(s), target)
  {
    hide Spares;
    SameSpares(s, PairButtonStep(s, secondHost), target);
    SameSpares(s, PairFpStep(s), target);
  }

  lemma ArmSpares(s: State, duration: nat, services: set<string>, agent: Option<nat>, target: Target)
    ensures Spares(s, ArmWindow(s, duration, services, agent), target)
  {
    hide Arm;
    var window := Arm(s.now, duration, services);
    LogSpares(s, ArmWindow(s, duration, services, agent), WindowArmed(window, s.now, agent), target);
  }

  lemma ProceedSpares(s: State, ok: bool, target: Target)
    ensures Spares(s, ProceedStep(s, ok), target)
  {
    var free := s.(call := Free);
    hide Spares, ArmWindow, MayLock;
    match s.call
    case Approving =>
      if s.coord.pendingPam.Some? {
        LogSpares(s, ProceedStep(s, ok), SlotApproved(s.coord.pendingPam.value), target);
      } else {
        SameSpares(s, ProceedStep(s, ok), target);
      }
    case Following => FollowSpares(s, s.locked, target);
    case Unlocking => FollowSpares(s, ok, target);
    case Clearing => LogSpares(s, ProceedStep(s, ok), WindowCleared, target);
    case _ => SameSpares(s, ProceedStep(s, ok), target);
  }

  lemma FollowSpares(s: State, granted: bool, target: Target)
    ensures Spares(s, FollowUp(s, granted), target)
  {
    var free := s.(call := Free);
    hide Spares, ArmWindow;
    SameSpares(s, free, target);
    ArmSpares(free, UNLOCK_WINDOW, UNLOCK_SERVICES, None, target);
    SparesFrom(s, free, FollowUp(s, granted), target);
  }

  lemma DeliverSpares(s: State, frame: Frame, target: Target)
    ensures Spares(s, DeliverStep(s, frame), target)
  {
    hide Spares, Route, CallFor, ProgressAfter, Quiet;
    SameSpares(s, s, target);
    if Listening(s) {
      LogSpares(s, DeliverStep(s, frame), Received(frame, Quiet(s.link)), target);
    }
  }

  lemma DisconnectSpares(s: State, target: Target)
    ensures Spares(s, DisconnectStep(s), target)
  {
    SameSpares(s, DisconnectStep(s), target);
  }

  /** The only step that kills needs the permit it spends. */
  lemma SeeCancelSpares(s: State, target: Target)
    requires !Permit(s, target)
    ensures Spares(s, SeeCancelStep(s), target)
  {
  }

  lemma FetchSpares(s: State, written: bool, target: Target)
    ensures Spares(s, FetchStep(s, written), target)
  {
    hide Spares, Transmit;
    SameSpares(s, s, target);
    if s.pc == Main && s.call == Free && s.queue != [] {
      var taken := s.(queue := s.queue[1..]);
      TransmitSpares(taken, s.queue[0], written, target);
      SparesFrom(s, taken, FetchStep(s, written), target);
    }
  }

  lemma WorkerSpares(s: State, a: Action, target: Target)
    requires !IsHandler(a) && !(a.Tick? || a.Screen? || a.Settings? || a.Arrive?) && !a.CancelGate?
    requires a.SeeCancel? ==> !Permit(s, target)
    ensures Spares(s, WorkerStep(s, a), target)
  {
    hide Spares, FetchStep, DeliverStep, ResolveStep, SeeCancelStep, CloseStep, ExpireStep, DisconnectStep,
         PairAgainStep, PairButtonStep, PairFpStep, PairEndStep, ProceedStep;
    match a
    case Fetch(written) => FetchSpares(s, written, target);
    case Deliver(frame) => DeliverSpares(s, frame, target);
    case Resolve => ResolveSpares(s, target);
    case PairAgain(written) => PairingSpares(s, written, true, target);
    case PairEnd(ok) => PairingSpares(s, true, ok, target);
    case PairButton(secondHost) => PairWaitsSpare(s, secondHost, target);
    case PairFp => PairWaitsSpare(s, true, target);
    case Proceed(ok) => ProceedSpares(s, ok, target);
    case SeeCancel => SeeCancelSpares(s, target);
    case Disconnect => DisconnectSpares(s, target);
    case _ => EndSpares(s, target);
  }

  lemma StepSpares(s: State, a: Action, target: Target)
    requires !a.Cancel? && !a.CancelGate? && (a.SeeCancel? ==> !Permit(s, target))
    ensures Spares(s, Next(s, a), target)
  {
    hide Spares, HandlerStep, WorkerStep;
    if a.Tick? || a.Screen? || a.Settings? || a.Arrive? {
      SameSpares(s, WorldStep(s, a), target);
    } else if IsHandler(a) {
      HandlersSpare(s, a, target);
    } else {
      WorkerSpares(s, a, target);
    }
  }

  lemma {:induction false} ContinueSpares(s: State, more: seq<Action>, target: Target)
    requires Silent(more) && !Permit(s, target)
    ensures Spares(s, Continue(s, more), target)
  {
    if more == [] {
      SameSpares(s, s, target);
    } else {
      var n := |more| - 1;
      var before := Continue(s, more[..n]);
      ContinueSpares(s, more[..n], target);
      StepSpares(before, more[n], target);
      hide Next;
      SparesOn(s, before, Continue(s, more), target);
    }
  }

  // ---- A stored permit kills a later request ----

  /** `q` was killed on the way from `s` to `t`. */
  ghost predicate KilledSince(s: State, t: State, target: Target, q: nat) {
    exists k :: |s.log| <= k < |t.log| && t.log[k] == Kill(target, q)
  }

  /** Without another cancel, action `a` can end up killing `q`. */
  ghost predicate CanKill(s: State, a: Action, target: Target, q: nat) {
    exists t :: Leads(Next(s, a), t) && KilledSince(s, t, target, q)
  }

  /** Action `a` can end up killing a request that has not even arrived yet. */
  ghost predicate CanKillLater(s: State, a: Action, target: Target) {
    exists q :: q >= |s.requests| && CanKill(s, a, target, q)
  }

  lemma LogsGrow(s: State, t: State, target: Target)
    requires Leads(s, t) && !Permit(s, target)
    ensures Spares(s, t, target)
  {
    var more :| Silent(more) && Continue(s, more) == t;
    ContinueSpares(s, more, target);
  }

  lemma SparedIsAlive(s: State, t: State, target: Target, q: nat)
    requires Spares(s, t, target)
    ensures !KilledSince(s, t, target, q)
  {
    forall k | |s.log| <= k < |t.log| ensures t.log[k] != Kill(target, q) {
      assert !IsKillOf(target, t.log[k]);
    }
  }

  /** A cancel that stores no permit kills nobody. */
  lemma NoPermitNoKill(s: State, a: Action, target: Target, q: nat)
    requires !Permit(s, target) && Spares(s, Next(s, a), target)
    ensures !CanKill(s, a, target, q)
  {
    hide Next, Leads, Spares, KilledSince;
    forall t | Leads(Next(s, a), t) ensures !KilledSince(s, t, target, q) {
      SparesNoPermit(s, Next(s, a), target);
      LogsGrow(Next(s, a), t, target);
      SparesOn(s, Next(s, a), t, target);
      SparedIsAlive(s, t, target, q);
    }
  }

  lemma SparesNoPermit(s: State, t: State, target: Target)
    requires Spares(s, t, target) && !Permit(s, target)
    ensures !Permit(t, target)
  {
  }

  /** The permit is stored: the worker comes back to its main loop with it, and a new request takes the blow. */
  lemma PermitKillsLater(s: State, a: Action, x: State, target: Target)
    requires Reachable(Next(s, a)) && Leads(Next(s, a), x) && Permit(x, target)
    requires |s.log| <= |x.log| && |s.requests| <= |x.requests| && (target.TheAuth? ==> x.coord.pendingPam.None?)
    ensures CanKillLater(s, a, target)
  {
    var from := Next(s, a);
    hide Next;
    var idle := Idles(from, x);
    MainIsReady(from, idle);
    hide Leads, Reachable;
    var killed: State;
    if target.TheGate? {
      killed := KillsNewGate(from, idle);
    } else {
      killed := KillsNewAuth(from, idle);
    }
    assert killed.log[|killed.log| - 1] == Kill(target, |idle.requests|);
    assert KilledSince(s, killed, target, |idle.requests|);
    assert CanKill(s, a, target, |idle.requests|);
  }

  lemma MainIsReady(from: State, s: State)
    requires Reachable(from) && Leads(from, s) && s.pc == Main && s.call == Free && s.queue == []
    ensures Ready(s)
  {
    ReachLeads(from, s);
    var actions :| Run(actions) == s;
    Waits.RunKeeps(actions);
  }

  lemma KillsNewGate(from: State, s: State) returns (t: State)
    requires Ready(s) && Leads(from, s) && s.coord.gatePermit
    ensures Leads(from, t) && |t.log| == |s.log| + 4 && t.log[|t.log| - 1] == GateKilled(|s.requests|)
  {
    var waiting := NewGate(from, s);
    hide Leads;
    t := Next(waiting, SeeCancel);
    LeadsNext(from, waiting, SeeCancel, t);
    assert t.log == waiting.log + [GateKilled(|s.requests|)];
  }

  lemma KillsNewAuth(from: State, s: State) returns (t: State)
    requires Ready(s) && Leads(from, s) && s.coord.authPermit && s.coord.pendingPam.None?
    ensures Leads(from, t) && |t.log| == |s.log| + 4 && t.log[|t.log| - 1] == AuthKilled(|s.requests|)
  {
    var waiting := NewAuth(from, s);
    hide Leads;
    t := Next(waiting, SeeCancel);
    LeadsNext(from, waiting, SeeCancel, t);
    assert t.log == waiting.log + [AuthKilled(|s.requests|)];
  }

  // ---- GATE:CANCEL ----

  /** With no further cancel, the worker can be back in its main loop with the permit still stored. */
  ghost predicate Strands(s: State) {
    exists t :: Leads(Next(s, CancelGate), t) && t.pc == Main && t.coord.gatePermit
  }

  /**
   * In every reachable state without a stored permit: a checked cancel sent now can be left stored with the worker back in
   * its main loop, and can kill the gate of a request that has not even arrived, if and only if a gate is in force. It does
   * not matter whether that gate is undecided, has its result in hand or is being wound down.
   */
  lemma GateCancelStrands(actions: seq<Action>)
    requires !Run(actions).coord.gatePermit
    ensures Strands(Run(actions)) <==> Ledger.GateOf(Run(actions).pc).Some?
    ensures CanKillLater(Run(actions), CancelGate, TheGate) <==> Ledger.GateOf(Run(actions).pc).Some?
  {
    var s := Run(actions);
    var after := Next(s, CancelGate);
    Ledger.RunKeeps(actions);
    LeadsSelf(after);
    if Ledger.GateOf(s.pc).Some? {
      assert Reachable(s);
      ReachNext(s, CancelGate, after);
      hide Reachable, Run;
      assert after.coord.gatePermit && |s.log| <= |after.log| && after.requests == s.requests;
      hide Next, Ledger.Inv;
      PermitKillsLater(s, CancelGate, after, TheGate);
      var home := Idles(after, after);
      assert Strands(s);
    } else {
      assert after == s;
      hide Run, Next, Ledger.Inv;
      forall t | Leads(after, t) ensures !t.coord.gatePermit {
        LogsGrow(after, t, TheGate);
      }
      forall q ensures !CanKill(s, CancelGate, TheGate, q) {
        SameSpares(s, s, TheGate);
        NoPermitNoKill(s, CancelGate, TheGate, q);
      }
    }
  }

  // ---- Cancels by a handler ----

  predicate Races(s: State, r: nat) {
    r < |s.requests| && s.requests[r].phase == Racing
  }

  /** Handlers of gated commands do not check the flag: whenever theirs still races, the cancel can kill a later gate. */
  lemma HandlerCancelStrands(actions: seq<Action>, r: nat)
    requires !Run(actions).coord.gatePermit
    ensures CanKillLater(Run(actions), Cancel(r), TheGate) <==> Races(Run(actions), r) && Run(actions).requests[r].kind.Gated?
  {
    var s := Run(actions);
    var after := Next(s, Cancel(r));
    if Races(s, r) && s.requests[r].kind.Gated? {
      assert Reachable(s);
      ReachNext(s, Cancel(r), after);
      LeadsSelf(after);
      assert after.coord.gatePermit && |s.log| <= |after.log| && |after.requests| == |s.requests|;
      hide Reachable, Run, Next;
      PermitKillsLater(s, Cancel(r), after, TheGate);
    } else {
      CancelSpares(s, r, TheGate);
      hide Run, Next;
      forall q ensures !CanKill(s, Cancel(r), TheGate, q) {
        NoPermitNoKill(s, Cancel(r), TheGate, q);
      }
    }
  }

  /** A handler's cancel leaves the other permit alone, and does nothing once its request is decided. */
  lemma CancelSpares(s: State, r: nat, target: Target)
    requires Races(s, r) ==> if target.TheGate? then !s.requests[r].kind.Gated? else !s.requests[r].kind.Authenticates()
    ensures Spares(s, Next(s, Cancel(r)), target)
  {
    hide Spares;
    SameSpares(s, s, target);
    if Races(s, r) {
      var q := s.requests[r];
      if q.kind.Authenticates() {
        LogSpares(s, Next(s, Cancel(r)), DialogNotified(r), target);
      } else if q.kind.Gated? {
        LogSpares(s, Next(s, Cancel(r)), Notified(false), target);
      }
    }
  }

  lemma ClearEmpties(s: State, r: nat)
    requires r < |s.requests| && s.requests[r].phase.Decided?
    requires s.coord.pendingPam.Some? ==> s.coord.pendingPam.value < |s.requests|
    ensures var t := Next(s, Clear(r));
      t.coord.authPermit == s.coord.authPermit && t.coord.pendingPam.None? && |t.requests| == |s.requests| && |s.log| <= |t.log|
  {
  }

  /** The cancelled handler clears the slot, whoever holds it. */
  lemma DismissedClears(s: State, r: nat)
    requires Reachable(s) && Races(s, r) && s.requests[r].kind.Authenticates()
    ensures var t := Next(Next(s, Cancel(r)), Clear(r));
      t.coord.authPermit && t.coord.pendingPam.None? && |t.requests| == |s.requests| && |s.log| <= |t.log|
  {
    var after := Next(s, Cancel(r));
    assert |after.requests| == |s.requests| && after.requests[r].phase == Decided(false) && after.coord.authPermit;
    assert |s.log| <= |after.log|;
    ReachNext(s, Cancel(r), after);
    hide Next;
    var actions :| Run(actions) == after;
    Slot.RunKeeps(actions);
    ClearEmpties(after, r);
  }

  /**
   * In every reachable state without a stored permit: a dialog cancel of `r` can deny another request's authentication, even
   * one that has not arrived yet, if and only if `r` still races. Wherever its own authentication is, there is no state in
   * which the cancel is sure to reach that one alone.
   */
  lemma DialogCancelReachesOthers(actions: seq<Action>, r: nat)
    requires !Run(actions).coord.authPermit
    ensures CanKillLater(Run(actions), Cancel(r), TheAuth) <==> Races(Run(actions), r) && Run(actions).requests[r].kind.Authenticates()
    ensures (exists q :: q != r && CanKill(Run(actions), Cancel(r), TheAuth, q))
            <==> Races(Run(actions), r) && Run(actions).requests[r].kind.Authenticates()
  {
    var s := Run(actions);
    var after := Next(s, Cancel(r));
    if Races(s, r) && s.requests[r].kind.Authenticates() {
      assert Reachable(s);
      ReachNext(s, Cancel(r), after);
      DismissedClears(s, r);
      var cleared := Next(after, Clear(r));
      LeadsSelf(after);
      LeadsNext(after, after, Clear(r), cleared);
      hide Reachable, Run, Next, Leads;
      PermitKillsLater(s, Cancel(r), cleared, TheAuth);
      hide CanKill;
    } else {
      CancelSpares(s, r, TheAuth);
      hide Run, Next;
      forall q ensures !CanKill(s, Cancel(r), TheAuth, q) {
        NoPermitNoKill(s, Cancel(r), TheAuth, q);
      }
      hide CanKill;
    }
  }
}
