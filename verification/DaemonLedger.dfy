/** In every run: where pre-auth windows come from, what cancels a gate, and that touches are not spent twice. */
module DaemonLedger {
  import opened Wire
  import opened Link
  import opened Coordinator
  import opened Daemon
  import opened DaemonHistory

  function GateOf(pc: Pc): Option<nat> {
    match pc
    case GateWait(r) => Some(r)
    case GateClosing(r) => Some(r)
    case _ => None
  }

  function AuthOf(pc: Pc): Option<nat> {
    match pc
    case AuthWait(r) => Some(r)
    case AuthClosing(r) => Some(r)
    case _ => None
  }

  predicate Just(before: seq<Event>, e: Event) {
    match e
    case Windowed(r, service, at) =>
      && Standing(before).Some? && Standing(before).value.at <= at
      && Admits(Some(Standing(before).value.window), at, service)
    case WindowArmed(window, at, agent) =>
      window == if agent.Some? then Arm(at, SUDO_WINDOW, SUDO_SERVICES) else Arm(at, UNLOCK_WINDOW, UNLOCK_SERVICES)
    case SlotApproved(_) => Count(before, IsSlotApproval) < Count(before, IsTouch)
    case GateKilled(r) => GateStored(before) && GateUnderway(before) == Some(r)
    case AuthKilled(r) => AuthStored(before) && AuthUnderway(before) == Some(r)
    case Notified(checked) => checked ==> GateUnderway(before).Some?
    case _ => true
  }

  /** The window, the stored permits, the gate and the authentication in force are what the log says they are. */
  predicate WindowsAgree(s: State) {
    match Standing(s.log)
    case None => s.coord.preAuth == None
    case Some(e) => s.coord.preAuth == Some(e.window) && e.at <= s.now
  }

  predicate GatesAgree(s: State) {
    && s.coord.gatePermit == GateStored(s.log)
    && s.coord.gateActive == GateOf(s.pc).Some?
    && GateUnderway(s.log) == GateOf(s.pc)
  }

  predicate AuthsAgree(s: State) {
    s.coord.authPermit == AuthStored(s.log) && AuthUnderway(s.log) == AuthOf(s.pc)
  }

  predicate TouchesCover(s: State) {
    Count(s.log, IsSlotApproval) + (if s.call == Approving then 1 else 0) <= Count(s.log, IsTouch)
  }

  ghost predicate Inv(s: State) {
    WindowsAgree(s) && GatesAgree(s) && AuthsAgree(s) && TouchesCover(s) && Throughout(s.log, Just)
  }

  /** The invariant reads nothing else of the state; time only moves forward. */
  lemma SameKeeps(s: State, t: State)
    requires Inv(s) && t.log == s.log && t.coord.preAuth == s.coord.preAuth && t.now >= s.now
    requires t.coord.gatePermit == s.coord.gatePermit && t.coord.gateActive == s.coord.gateActive && GateOf(t.pc) == GateOf(s.pc)
    requires t.coord.authPermit == s.coord.authPermit && AuthOf(t.pc) == AuthOf(s.pc)
    requires t.call == s.call || t.call != Approving
    ensures Inv(t)
  {
  }

  /** Events that touch neither windows, gates, authentications nor the pending slot. */
  predicate Neutral(e: Event) {
    e.Sent? || e.SlotDenied? || e.Accepted? || e.Approved? || e.Windowed?
  }

  lemma LogKeeps(s: State, e: Event)
    requires Inv(s) && Neutral(e) && Just(s.log, e)
    ensures Inv(Log(s, e))
  {
    hide Standing, GateStored, AuthStored, GateUnderway, AuthUnderway, Count, Throughout, Just;
    LogNext(s.log, e);
    ThroughoutNext(s.log, e, Just);
  }

  lemma ArmKeeps(s: State, agent: Option<nat>)
    requires Inv(s)
    ensures agent.None? ==> Inv(ArmWindow(s, UNLOCK_WINDOW, UNLOCK_SERVICES, agent))
    ensures agent.Some? ==> Inv(ArmWindow(s, SUDO_WINDOW, SUDO_SERVICES, agent))
  {
    var window := if agent.Some? then Arm(s.now, SUDO_WINDOW, SUDO_SERVICES) else Arm(s.now, UNLOCK_WINDOW, UNLOCK_SERVICES);
    var e := WindowArmed(window, s.now, agent);
    hide Standing, GateStored, AuthStored, GateUnderway, AuthUnderway, Count, Throughout, Arm;
    assert Just(s.log, e);
    LogNext(s.log, e);
    ThroughoutNext(s.log, e, Just);
  }

  lemma ClearWindowKeeps(s: State)
    requires Inv(s)
    ensures Inv(Log(s.(coord := s.coord.(preAuth := None)), WindowCleared))
  {
    var e := WindowCleared;
    hide Standing, GateStored, AuthStored, GateUnderway, AuthUnderway, Count, Throughout;
    LogNext(s.log, e);
    ThroughoutNext(s.log, e, Just);
  }

  lemma NotifyKeeps(s: State, checked: bool)
    requires Inv(s) && (checked ==> GateOf(s.pc).Some?)
    ensures Inv(Log(s.(coord := s.coord.(gatePermit := true)), Notified(checked)))
  {
    var e := Notified(checked);
    hide Standing, GateStored, AuthStored, GateUnderway, AuthUnderway, Count, Throughout;
    LogNext(s.log, e);
    assert Just(s.log, e);
    ThroughoutNext(s.log, e, Just);
  }

  lemma DialogKeeps(s: State, r: nat)
    requires Inv(s)
    ensures Inv(Log(s.(coord := s.coord.(authPermit := true)), DialogNotified(r)))
  {
    var e := DialogNotified(r);
    hide Standing, GateStored, AuthStored, GateUnderway, AuthUnderway, Count, Throughout;
    LogNext(s.log, e);
    ThroughoutNext(s.log, e, Just);
  }

  lemma OpenAuthKeeps(s: State, r: nat)
    requires Inv(s) && GateOf(s.pc).None?
    ensures Inv(Log(s.(pc := AuthWait(r)), AuthOpened(r)))
  {
    var e := AuthOpened(r);
    hide Standing, GateStored, AuthStored, GateUnderway, AuthUnderway, Count, Throughout;
    LogNext(s.log, e);
    ThroughoutNext(s.log, e, Just);
  }

  lemma KillAuthKeeps(s: State, r: nat)
    requires Inv(s) && s.pc == AuthWait(r) && s.coord.authPermit
    ensures Inv(Log(s.(coord := s.coord.(authPermit := false), pc := AuthClosing(r)), AuthKilled(r)))
  {
    var e := AuthKilled(r);
    hide Standing, GateStored, AuthStored, GateUnderway, AuthUnderway, Count, Throughout;
    LogNext(s.log, e);
    assert Just(s.log, e);
    ThroughoutNext(s.log, e, Just);
  }

  /** An answer to a request ends whatever authentication was underway; a gate is closed by its own event. */
  lemma ReplyKeeps(s: State, r: nat, ok: bool)
    requires Inv(s)
    ensures GateOf(s.pc).None? ==> Inv(Log(s.(pc := Main), Replied(r, ok)))
    ensures GateOf(s.pc).Some? ==> Inv(Log(s, Replied(r, ok)))
  {
    var e := Replied(r, ok);
    hide Standing, GateStored, AuthStored, GateUnderway, AuthUnderway, Count, Throughout;
    LogNext(s.log, e);
    ThroughoutNext(s.log, e, Just);
  }

  lemma KillKeeps(s: State, r: nat)
    requires Inv(s) && s.pc == GateWait(r) && s.coord.gatePermit
    ensures Inv(Log(s.(coord := s.coord.(gatePermit := false), pc := GateClosing(r)), GateKilled(r)))
  {
    var e := GateKilled(r);
    hide Standing, GateStored, AuthStored, GateUnderway, AuthUnderway, Count, Throughout;
    LogNext(s.log, e);
    assert Just(s.log, e);
    ThroughoutNext(s.log, e, Just);
  }

  lemma OpenGateKeeps(s: State, r: nat)
    requires Inv(s) && GateOf(s.pc).None? && AuthOf(s.pc).None?
    ensures Inv(Log(s.(pc := GateWait(r), coord := s.coord.(gateActive := true)), GateOpened(r)))
  {
    var e := GateOpened(r);
    hide Standing, GateStored, AuthStored, GateUnderway, AuthUnderway, Count, Throughout;
    LogNext(s.log, e);
    ThroughoutNext(s.log, e, Just);
  }

  lemma EndGateKeeps(s: State, r: nat)
    requires Inv(s) && AuthOf(s.pc).None?
    ensures Inv(Log(s.(pc := Main, coord := s.coord.(gateActive := false)), GateClosed(r)))
  {
    var e := GateClosed(r);
    hide Standing, GateStored, AuthStored, GateUnderway, AuthUnderway, Count, Throughout;
    LogNext(s.log, e);
    ThroughoutNext(s.log, e, Just);
  }

  lemma ApproveKeeps(s: State, r: nat)
    requires Inv(s) && s.call == Approving
    ensures Inv(Log(s.(call := Stamping), SlotApproved(r)))
  {
    var e := SlotApproved(r);
    hide Standing, GateStored, AuthStored, GateUnderway, AuthUnderway, Count, Throughout;
    LogNext(s.log, e);
    assert Just(s.log, e);
    ThroughoutNext(s.log, e, Just);
  }

  lemma DeliverKeeps(s: State, f: Frame)
    requires Inv(s)
    ensures Inv(DeliverStep(s, f))
  {
    if Listening(s) {
      var e := Received(f, Quiet(s.link));
      MatchNeedsGenuineIdle(s.link, f);
      LogNext(s.log, e);
      ThroughoutNext(s.log, e, Just);
      assert DeliverStep(s, f).call == Approving ==> IsTouch(e);
      hide Standing, GateStored, AuthStored, GateUnderway, AuthUnderway, Count, Throughout, Just, Route, IsTouch;
    }
  }

  lemma AdmittedIsJust(s: State, r: nat, service: string)
    requires Inv(s) && Admits(s.coord.preAuth, s.now, service)
    ensures Just(s.log, Windowed(r, service, s.now))
  {
    hide Standing, Throughout, Count, Lower;
  }

  lemma CheckWindowKeeps(s: State, r: nat)
    requires Inv(s) && r < |s.requests|
    ensures Inv(CheckWindowStep(s, r, s.requests[r]))
  {
    hide Inv, Just, Admits;
    var q := s.requests[r];
    SameKeeps(s, Put(s, r, q.(phase := Finished)));
    SameKeeps(s, Put(s, r, q.(phase := Unwindowed)));
    if q.kind.Pam? && Admits(s.coord.preAuth, s.now, q.kind.service) {
      AdmittedIsJust(s, r, q.kind.service);
      LogKeeps(Put(s, r, q.(phase := Finished)), Windowed(r, q.kind.service, s.now));
    }
  }

  lemma BridgeKeeps(s: State, r: nat)
    requires Inv(s) && r < |s.requests|
    ensures Inv(BridgeStep(s, r, s.requests[r]))
  {
    hide Inv, ArmWindow;
    SameKeeps(s, Put(s, r, s.requests[r].(phase := Bridged)));
    ArmKeeps(Put(s, r, s.requests[r].(phase := Bridged)), Some(r));
  }

  lemma CancelKeeps(s: State, r: nat)
    requires Inv(s) && r < |s.requests|
    ensures Inv(CancelStep(s, r, s.requests[r]))
  {
    hide Inv;
    var q := s.requests[r];
    SameKeeps(s, Decide(s, r, q, false));
    DialogKeeps(Decide(s, r, q, false), r);
    SameKeeps(s, Put(s, r, q.(phase := Finished)));
    NotifyKeeps(Put(s, r, q.(phase := Finished)), false);
  }

  lemma ClearKeeps(s: State, r: nat)
    requires Inv(s) && r < |s.requests|
    ensures Inv(ClearStep(s, r, s.requests[r]))
  {
    hide Inv;
    var q, t := s.requests[r], ClearStep(s, r, s.requests[r]);
    if t.log == s.log {
      SameKeeps(s, t);
    } else {
      var e := SlotDenied(s.coord.pendingPam.value, r);
      SameKeeps(s, t.(log := s.log));
      LogKeeps(t.(log := s.log), e);
    }
  }

  lemma TakeKeeps(s: State, r: nat)
    requires Inv(s) && r < |s.requests|
    ensures Inv(TakeReplyStep(s, r, s.requests[r]))
    ensures Inv(TakePendingStep(s, r, s.requests[r]))
  {
    hide Inv;
    var q := s.requests[r];
    SameKeeps(s, Put(s, r, q.(phase := Finished)));
    SameKeeps(s, Put(s, r, q.(phase := Decided(true))));
    SameKeeps(s, Put(s, r, q.(phase := Decided(false))));
    LogKeeps(Put(s, r, q.(phase := Decided(true))), Accepted(r, q.kind));
  }

  lemma AnswerKeeps(s: State, r: nat)
    requires Inv(s) && r < |s.requests|
    ensures Inv(AnswerStep(s, r, s.requests[r]))
  {
    hide Inv;
    SameKeeps(s, Put(s, r, s.requests[r].(phase := Finished)));
    LogKeeps(Put(s, r, s.requests[r].(phase := Finished)), Approved(r, s.requests[r].kind));
  }

  lemma ClaimKeeps(s: State, r: nat)
    requires Inv(s) && r < |s.requests|
    ensures Inv(ClaimStep(s, r, s.requests[r]))
  {
    hide Inv;
    SameKeeps(s, ClaimStep(s, r, s.requests[r]));
  }

  lemma EnqueueKeeps(s: State, r: nat)
    requires Inv(s) && r < |s.requests|
    ensures Inv(EnqueueStep(s, r, s.requests[r]))
  {
    hide Inv;
    SameKeeps(s, EnqueueStep(s, r, s.requests[r]));
  }

  lemma HandlerKeeps(s: State, a: Action)
    requires Inv(s) && IsHandler(a)
    ensures Inv(HandlerStep(s, a))
  {
    hide Inv, CheckWindowStep, ClaimStep, EnqueueStep, TakeReplyStep, TakePendingStep, CancelStep, ClearStep, BridgeStep, AnswerStep;
    if a.r < |s.requests| {
      CheckWindowKeeps(s, a.r);
      ClaimKeeps(s, a.r);
      EnqueueKeeps(s, a.r);
      TakeKeeps(s, a.r);
      CancelKeeps(s, a.r);
      ClearKeeps(s, a.r);
      BridgeKeeps(s, a.r);
      AnswerKeeps(s, a.r);
    }
  }

  lemma ReturnKeeps(s: State, r: nat, ok: bool)
    requires Inv(s) && GateOf(s.pc).None?
    ensures Inv(Return(s, r, ok))
  {
    hide Inv;
    ReplyKeeps(s, r, ok);
    SameKeeps(Log(s.(pc := Main), Replied(r, ok)), Return(s, r, ok));
  }

  lemma ReturnPairingKeeps(s: State, r: nat, ok: bool)
    requires Inv(s) && GateOf(s.pc).None?
    ensures Inv(ReturnPairing(s, r, ok))
  {
    hide Inv, Return;
    var done := s.(coord := s.coord.(progress := if ok then Done else Failed));
    SameKeeps(s, done);
    ReturnKeeps(done, r, ok);
  }

  lemma TransmitKeeps(s: State, r: nat, written: bool)
    requires Inv(s) && GateOf(s.pc).None? && AuthOf(s.pc).None?
    ensures Inv(Transmit(s, r, written))
  {
    hide Inv, Return, ReturnPairing;
    var armed := s.(link := s.link.(response := Oneshot(true, Waiting)));
    SameKeeps(s, armed);
    SameKeeps(s, armed.(pc := CommandWait(r), since := |s.log|));
    LogKeeps(armed.(pc := CommandWait(r), since := |s.log|), Sent(r));
    ReturnKeeps(armed, r, false);
    ReturnPairingKeeps(armed, r, false);
  }

  lemma CloseGateKeeps(s: State, r: nat, ok: bool)
    requires Inv(s) && GateOf(s.pc).Some?
    ensures Inv(CloseGate(s, r, ok))
  {
    hide Inv;
    ReplyKeeps(s, r, ok);
    var replied := Log(s, Replied(r, ok));
    EndGateKeeps(replied, r);
    SameKeeps(Log(replied.(pc := Main, coord := s.coord.(gateActive := false)), GateClosed(r)), CloseGate(s, r, ok));
  }

  lemma CloseAuthKeeps(s: State, r: nat, ok: bool)
    requires Inv(s) && GateOf(s.pc).None?
    ensures Inv(CloseAuth(s, r, ok))
  {
    hide Inv, Return;
    SameKeeps(s, s.(link := s.link.(authPending := false, auth := s.link.auth.Drop())));
    ReturnKeeps(s.(link := s.link.(authPending := false, auth := s.link.auth.Drop())), r, ok);
  }

  lemma AnsweredKeeps(s: State, r: nat, answer: Bytes)
    requires Inv(s) && s.pc == CommandWait(r)
    ensures Inv(Answered(s, r, answer))
  {
    hide Inv, Return;
    ReturnKeeps(s, r, true);
    ReturnKeeps(s, r, false);
    OpenAuthKeeps(s, r);
    SameKeeps(Log(s.(pc := AuthWait(r)), AuthOpened(r)), OpenAuth(s, r));
    OpenGateKeeps(s, r);
    SameKeeps(Log(s.(pc := GateWait(r), coord := s.coord.(gateActive := true)), GateOpened(r)), Daemon.OpenGate(s, r));
  }

  lemma ResolveKeeps(s: State)
    requires Inv(s)
    ensures Inv(ResolveStep(s))
  {
    hide Inv, Answered, CloseAuth, CloseGate;
    match s.pc
    case CommandWait(r) =>
      if s.link.response.rx.Got? {
        AnsweredKeeps(s, r, s.link.response.rx.value);
      }
    case AuthWait(r) =>
      if s.link.auth.rx.Got? {
        CloseAuthKeeps(s, r, s.link.auth.rx.value);
      }
    case GateWait(r) =>
      if s.link.gate.rx.Got? {
        CloseGateKeeps(s, r, s.link.gate.rx.value.passed);
      }
    case _ =>
  }

  lemma SeeCancelKeeps(s: State)
    requires Inv(s)
    ensures Inv(SeeCancelStep(s))
  {
    hide Inv;
    var t := SeeCancelStep(s);
    if t.log == s.log {
      SameKeeps(s, t);
    } else if s.pc.GateWait? {
      KillKeeps(s, s.pc.r);
      SameKeeps(Log(s.(coord := s.coord.(gatePermit := false), pc := GateClosing(s.pc.r)), GateKilled(s.pc.r)), t);
    } else {
      KillAuthKeeps(s, s.pc.r);
      SameKeeps(Log(s.(coord := s.coord.(authPermit := false), pc := AuthClosing(s.pc.r)), AuthKilled(s.pc.r)), t);
    }
  }

  lemma EndKeeps(s: State)
    requires Inv(s)
    ensures Inv(CloseStep(s)) && Inv(ExpireStep(s))
  {
    hide Inv, Return, ReturnPairing, CloseAuth, CloseGate;
    if s.pc != Main {
      var r := s.pc.r;
      if GateOf(s.pc).Some? {
        CloseGateKeeps(s, r, false);
      } else {
        CloseAuthKeeps(s, r, false);
        var dropped := s.(link := s.link.(response := s.link.response.Drop()));
        var ended := EndPairWaits(s).(link := EndPairWaits(s).link.(response := s.link.response.Drop()));
        SameKeeps(s, dropped);
        SameKeeps(s, ended);
        ReturnKeeps(dropped, r, false);
        ReturnPairingKeeps(ended, r, false);
      }
    }
  }

  lemma PairButtonKeeps(s: State, secondHost: bool)
    requires Inv(s)
    ensures Inv(PairButtonStep(s, secondHost))
  {
    hide Inv;
    SameKeeps(s, PairButtonStep(s, secondHost));
  }

  lemma PairFpKeeps(s: State)
    requires Inv(s)
    ensures Inv(PairFpStep(s))
  {
    hide Inv;
    SameKeeps(s, PairFpStep(s));
  }

  lemma PairingKeeps(s: State, written: bool, ok: bool)
    requires Inv(s)
    ensures Inv(PairAgainStep(s, written)) && Inv(PairEndStep(s, ok))
  {
    if InPairing(s) {
      assert GateOf(s.pc).None? && AuthOf(s.pc).None?;
      hide Inv, Return, ReturnPairing, Transmit, GateOf, AuthOf;
      SameKeeps(s, EndPairWaits(s));
      TransmitKeeps(EndPairWaits(s), s.pc.r, written);
      ReturnPairingKeeps(EndPairWaits(s), s.pc.r, ok);
    }
  }

  lemma FollowUpKeeps(s: State, granted: bool)
    requires Inv(s)
    ensures Inv(FollowUp(s, granted))
  {
    hide Inv, ArmWindow;
    SameKeeps(s, s.(call := Free));
    ArmKeeps(s.(call := Free), None);
  }

  lemma ApprovingKeeps(s: State, ok: bool)
    requires Inv(s) && s.call == Approving && s.coord.pendingPam.Some?
    ensures Inv(ProceedStep(s, ok))
  {
    hide Inv, GateOf, AuthOf;
    var r := s.coord.pendingPam.value;
    ApproveKeeps(s, r);
    SameKeeps(Log(s.(call := Stamping), SlotApproved(r)), ProceedStep(s, ok));
  }

  lemma CallKeeps(s: State, ok: bool)
    requires Inv(s) && (s.call == Approving ==> s.coord.pendingPam.None?)
    requires !s.call.Following? && !s.call.Unlocking? && !s.call.Clearing?
    ensures Inv(ProceedStep(s, ok))
  {
    hide Inv, MayLock, GateOf, AuthOf;
    SameKeeps(s, ProceedStep(s, ok));
  }

  lemma ProceedKeeps(s: State, ok: bool)
    requires Inv(s)
    ensures Inv(ProceedStep(s, ok))
  {
    if s.call == Approving && s.coord.pendingPam.Some? {
      hide *;
      ApprovingKeeps(s, ok);
    } else if s.call.Following? || s.call.Unlocking? {
      hide Inv, FollowUp;
      FollowUpKeeps(s, if s.call.Following? then s.locked else ok);
    } else if s.call.Clearing? {
      hide Inv, GateOf, AuthOf;
      SameKeeps(s, s.(call := Free));
      ClearWindowKeeps(s.(call := Free));
    } else {
      hide *;
      CallKeeps(s, ok);
    }
  }

  lemma FetchKeeps(s: State, written: bool)
    requires Inv(s)
    ensures Inv(FetchStep(s, written)) && Inv(DisconnectStep(s))
  {
    hide Inv, Transmit;
    SameKeeps(s, DisconnectStep(s));
    if s.pc == Main && s.queue != [] {
      SameKeeps(s, s.(queue := s.queue[1..]));
      TransmitKeeps(s.(queue := s.queue[1..]), s.queue[0], written);
    }
  }

  lemma CancelGateKeeps(s: State)
    requires Inv(s)
    ensures Inv(CancelGateStep(s))
  {
    assert s.coord.gateActive == GateOf(s.pc).Some?;
    hide Inv;
    if s.coord.gateActive {
      NotifyKeeps(s, true);
    }
  }

  lemma WorkerKeeps(s: State, a: Action)
    requires Inv(s) && !IsHandler(a) && !(a.Tick? || a.Screen? || a.Settings? || a.Arrive?)
    ensures Inv(WorkerStep(s, a))
  {
    hide Inv, CancelGateStep, FetchStep, DeliverStep, ResolveStep, SeeCancelStep, CloseStep, ExpireStep, DisconnectStep,
         PairAgainStep, PairButtonStep, PairFpStep, PairEndStep, ProceedStep;
    match a
    case CancelGate => CancelGateKeeps(s);
    case Fetch(written) => FetchKeeps(s, written);
    case Deliver(frame) => DeliverKeeps(s, frame);
    case Resolve => ResolveKeeps(s);
    case SeeCancel => SeeCancelKeeps(s);
    case Close => EndKeeps(s);
    case Expire => EndKeeps(s);
    case Disconnect => FetchKeeps(s, true);
    case PairAgain(written) => PairingKeeps(s, written, true);
    case PairButton(secondHost) => PairButtonKeeps(s, secondHost);
    case PairFp => PairFpKeeps(s);
    case PairEnd(ok) => PairingKeeps(s, true, ok);
    case Proceed(ok) => ProceedKeeps(s, ok);
  }

  lemma {:induction false} RunKeeps(actions: seq<Action>)
    ensures Inv(Run(actions))
  {
    if actions != [] {
      var s, a := Run(actions[..|actions| - 1]), actions[|actions| - 1];
      RunKeeps(actions[..|actions| - 1]);
      hide Inv, HandlerStep, WorkerStep;
      if a.Tick? || a.Screen? || a.Settings? || a.Arrive? {
        SameKeeps(s, WorldStep(s, a));
      } else if IsHandler(a) {
        HandlerKeeps(s, a);
      } else {
        WorkerKeeps(s, a);
      }
    }
  }
}
