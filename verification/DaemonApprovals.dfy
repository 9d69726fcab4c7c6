/** In every run, what an approval traces back to. */
module DaemonApprovals {
  import opened Wire
  import opened Link
  import opened Coordinator
  import opened Daemon
  import opened DaemonHistory
  import Waits = DaemonWaits

  ghost predicate Just(before: seq<Event>, e: Event) {
    match e
    case Accepted(r, _) => Caused(before, r)
    case Approved(r, kind) => Accepted(r, kind) in before && r !in Served(before)
    case WindowArmed(_, _, Some(r)) => Accepted(r, Agent) in before
    case _ => true
  }

  predicate Favourable(phase: Phase) {
    phase == Decided(true) || phase == Cleared(true) || phase == Bridged
  }

  /** Whatever a handler holds in favour of its request has a cause in the log. */
  ghost predicate RequestOk(q: Request, r: nat, log: seq<Event>) {
    && (q.pending == Got(true) ==> SlotApproved(r) in log)
    && (q.kind.Authenticates() && q.reply == Got(true) ==> Granted(log, r))
    && (Favourable(q.phase) ==> Accepted(r, q.kind) in log)
  }

  /** A request that was answered is finished. */
  predicate AnswersOk(requests: seq<Request>, log: seq<Event>) {
    forall r :: r in Served(log) ==> r < |requests| && requests[r].phase.Finished?
  }

  ghost predicate RequestsOk(requests: seq<Request>, log: seq<Event>) {
    AnswersOk(requests, log) && forall r :: 0 <= r < |requests| ==> RequestOk(requests[r], r, log)
  }

  /** What the wait's oneshot holds is what the frames routed since it began make of it. */
  predicate Holds(l: Link, pc: Pc, frames: seq<Frame>) {
    match pc
    case CommandWait(_) =>
      (match FirstAnswer(frames)
       case Some(answer) => l.response == Oneshot(false, Got(answer))
       case None => l.response == Oneshot(true, Waiting))
    case AuthWait(_) =>
      (match Verdict(frames)
       case Some(result) => AuthEnded(l, result.passed)
       case None => Mismatches(frames) < MAX_FAILURES && AuthOpen(l, Mismatches(frames)))
    case _ => true
  }

  function Beginning(pc: Pc): Event
    requires pc.CommandWait? || pc.AuthWait?
  {
    if pc.CommandWait? then Sent(pc.r) else AuthOpened(pc.r)
  }

  /** The worker is at what it began at `since`. */
  predicate WaitOk(s: State) {
    s.pc.CommandWait? || s.pc.AuthWait? ==>
      && s.since < |s.log| && s.log[s.since] == Beginning(s.pc)
      && Underway(s.log, s.since + 1, |s.log|)
      && Holds(s.link, s.pc, Since(s.log, s.since, |s.log|))
  }

  /** Gates and pairing waits never belong to an authentication request. */
  predicate KindOk(s: State) {
    s.pc.GateWait? || s.pc.GateClosing? || s.pc.ButtonWait? || s.pc.PairFpWait? ==>
      s.pc.r < |s.requests| && !s.requests[s.pc.r].kind.Authenticates()
  }

  ghost predicate Inv(s: State) {
    RequestsOk(s.requests, s.log) && WaitOk(s) && KindOk(s) && Throughout(s.log, Just)
  }

  /** The invariant reads nothing else of the state. */
  lemma SameKeeps(s: State, t: State)
    requires Inv(s) && t.requests == s.requests && t.log == s.log && t.pc == s.pc && t.since == s.since
    requires t.link == s.link || (t.link.response == s.link.response && !s.pc.AuthWait?)
    ensures Inv(t)
  {
  }

  lemma RequestKept(q: Request, r: nat, log: seq<Event>, e: Event)
    requires RequestOk(q, r, log)
    ensures RequestOk(q, r, log + [e])
  {
    if Granted(log, r) {
      GrantStays(log, e, r);
    }
  }

  lemma RequestsKept(requests: seq<Request>, log: seq<Event>, e: Event)
    requires RequestsOk(requests, log)
    requires e.Approved? ==> e.r < |requests| && requests[e.r].phase.Finished?
    ensures RequestsOk(requests, log + [e])
  {
    ServedNext(log, e);
    forall r | 0 <= r < |requests| ensures RequestOk(requests[r], r, log + [e]) {
      RequestKept(requests[r], r, log, e);
    }
  }

  /** Events that neither begin nor end anything of the worker's, and bring no frame. */
  predicate Aside(e: Event) {
    !e.Sent? && !e.Replied? && !e.Received?
  }

  lemma WaitKept(s: State, t: State, e: Event)
    requires WaitOk(s) && t.log == s.log + [e] && Aside(e)
    requires t.pc == s.pc && t.since == s.since && t.link == s.link
    ensures WaitOk(t)
  {
    hide Holds, Since;
    if s.pc.CommandWait? || s.pc.AuthWait? {
      SinceNext(s.log, e, s.since);
      assert Since(s.log, s.since, |s.log|) + [] == Since(s.log, s.since, |s.log|);
    }
  }

  lemma LogKeeps(s: State, e: Event)
    requires Inv(s) && Aside(e) && Just(s.log, e)
    requires e.Approved? ==> e.r < |s.requests| && s.requests[e.r].phase.Finished?
    ensures Inv(Log(s, e))
  {
    RequestsKept(s.requests, s.log, e);
    WaitKept(s, Log(s, e), e);
    ThroughoutNext(s.log, e, Just);
  }

  lemma PutKeeps(s: State, r: nat, q: Request)
    requires Inv(s) && r < |s.requests| && RequestOk(q, r, s.log) && q.kind == s.requests[r].kind
    requires q.phase.Finished? || !s.requests[r].phase.Finished?
    ensures Inv(Put(s, r, q))
  {
  }

  lemma DecideKeeps(s: State, r: nat, q: Request, ok: bool)
    requires Inv(s) && r < |s.requests| && RequestOk(q, r, s.log) && q.kind == s.requests[r].kind
    requires (ok ==> Caused(s.log, r)) && !s.requests[r].phase.Finished?
    ensures Inv(Decide(s, r, q, ok))
  {
    if ok {
      LogKeeps(s, Accepted(r, q.kind));
      RequestKept(q, r, s.log, Accepted(r, q.kind));
      PutKeeps(Log(s, Accepted(r, q.kind)), r, q.(phase := Decided(ok)));
    } else {
      PutKeeps(s, r, q.(phase := Decided(ok)));
    }
  }

  lemma ClearKeeps(s: State, r: nat)
    requires Inv(s) && r < |s.requests|
    ensures Inv(ClearStep(s, r, s.requests[r]))
  {
    var q := s.requests[r];
    if q.phase.Decided? {
      var cleared := Put(s, r, q.(phase := Cleared(q.phase.ok)));
      PutKeeps(s, r, q.(phase := Cleared(q.phase.ok)));
      if s.coord.pendingPam.Some? && s.coord.pendingPam.value < |s.requests| {
        var x := s.coord.pendingPam.value;
        PutKeeps(cleared, x, cleared.requests[x].(pending := Got(false)));
        LogKeeps(Put(cleared, x, cleared.requests[x].(pending := Got(false))), SlotDenied(x, r));
      }
    }
  }

  /** A window armed for nobody, or for an accepted request. */
  lemma ArmKeeps(s: State, duration: nat, services: set<string>, agent: Option<nat>)
    requires Inv(s) && (agent.Some? ==> Accepted(agent.value, Agent) in s.log)
    ensures Inv(ArmWindow(s, duration, services, agent))
  {
    LogKeeps(s, WindowArmed(Arm(s.now, duration, services), s.now, agent));
  }

  lemma AnswerKeeps(s: State, r: nat)
    requires Inv(s) && r < |s.requests|
    ensures Inv(AnswerStep(s, r, s.requests[r]))
    ensures Inv(BridgeStep(s, r, s.requests[r]))
  {
    var q := s.requests[r];
    PutKeeps(s, r, q.(phase := Finished));
    var done := Put(s, r, q.(phase := Finished));
    if Favourable(q.phase) {
      LogKeeps(done, Approved(r, q.kind));
      PutKeeps(s, r, q.(phase := Bridged));
      if q.kind.Agent? {
        ArmKeeps(Put(s, r, q.(phase := Bridged)), SUDO_WINDOW, SUDO_SERVICES, Some(r));
      }
    }
  }

  lemma CheckWindowKeeps(s: State, r: nat)
    requires Inv(s) && r < |s.requests|
    ensures Inv(CheckWindowStep(s, r, s.requests[r]))
  {
    var q := s.requests[r];
    assert RequestOk(q, r, s.log);
    if q.kind.Pam? && q.phase == Fresh {
      PutKeeps(s, r, q.(phase := Finished));
      PutKeeps(s, r, q.(phase := Unwindowed));
      hide Inv;
      LogKeeps(Put(s, r, q.(phase := Finished)), Windowed(r, q.kind.service, s.now));
    }
  }

  lemma ClaimKeeps(s: State, r: nat)
    requires Inv(s) && r < |s.requests|
    ensures Inv(ClaimStep(s, r, s.requests[r]))
  {
    var q := s.requests[r];
    var claimed := q.(phase := Racing, pending := Waiting);
    assert RequestOk(q, r, s.log);
    if !q.phase.Finished? {
      PutKeeps(s, r, q.(phase := Finished));
      PutKeeps(s, r, claimed);
      hide Inv, RequestOk;
      SameKeeps(Put(s, r, claimed), Put(s, r, claimed).(coord := s.coord.(pendingPam := Some(r))));
    }
  }

  lemma EnqueueKeeps(s: State, r: nat)
    requires Inv(s) && r < |s.requests|
    ensures Inv(EnqueueStep(s, r, s.requests[r]))
  {
    var q := s.requests[r];
    var queued := Put(s, r, q.(phase := Racing, sent := true, reply := Waiting));
    assert RequestOk(q, r, s.log);
    if !q.phase.Finished? {
      PutKeeps(s, r, q.(phase := Finished));
      PutKeeps(s, r, q.(phase := Racing, sent := true, reply := Waiting));
      hide Inv, RequestOk;
      SameKeeps(queued, queued.(queue := s.queue + [r]));
      SameKeeps(queued, queued.(queue := s.queue + [r], coord := s.coord.(progress := Idle)));
    }
  }

  lemma TakeKeeps(s: State, r: nat)
    requires Inv(s) && r < |s.requests|
    ensures Inv(TakeReplyStep(s, r, s.requests[r]))
    ensures Inv(TakePendingStep(s, r, s.requests[r]))
  {
    var q := s.requests[r];
    assert RequestOk(q, r, s.log);
    if q.phase == Racing {
      PutKeeps(s, r, q.(phase := Finished));
      PutKeeps(s, r, q.(phase := Decided(false)));
      hide RequestsOk, Throughout, Granted, WaitOk, Inv;
      if q.kind.Authenticates() && q.reply.Got? {
        DecideKeeps(s, r, q, q.reply.value);
      }
      if q.pending.Got? {
        DecideKeeps(s, r, q, q.pending.value);
      }
    }
  }

  lemma CancelKeeps(s: State, r: nat)
    requires Inv(s) && r < |s.requests|
    ensures Inv(CancelStep(s, r, s.requests[r]))
  {
    var q := s.requests[r];
    assert RequestOk(q, r, s.log);
    if q.phase == Racing {
      PutKeeps(s, r, q.(phase := Finished));
      DecideKeeps(s, r, q, false);
      hide Inv, RequestOk;
      var denied, dropped := Log(Decide(s, r, q, false), DialogNotified(r)), Log(Put(s, r, q.(phase := Finished)), Notified(false));
      LogKeeps(Decide(s, r, q, false), DialogNotified(r));
      LogKeeps(Put(s, r, q.(phase := Finished)), Notified(false));
      SameKeeps(denied, denied.(coord := s.coord.(authPermit := true)));
      SameKeeps(dropped, dropped.(coord := s.coord.(gatePermit := true)));
    }
  }

  lemma HandlerKeeps(s: State, a: Action)
    requires Inv(s) && IsHandler(a)
    ensures Inv(HandlerStep(s, a))
  {
    hide Inv, CheckWindowStep, ClaimStep, EnqueueStep, TakeReplyStep, TakePendingStep, CancelStep, ClearStep, BridgeStep, AnswerStep;
    if a.r < |s.requests| {
      CheckWindowKeeps(s, a.r);
      ClaimKeeps(s, a.r);
      EnqueueKeeps(s, a.r);
      TakeKeeps(s, a.r);
      CancelKeeps(s, a.r);
      ClearKeeps(s, a.r);
      AnswerKeeps(s, a.r);
    }
  }

  // ---- The worker ----

  /** Returning to the main loop with an answer that has its cause. */
  lemma ReturnKeeps(s: State, r: nat, ok: bool)
    requires RequestsOk(s.requests, s.log) && Throughout(s.log, Just)
    requires ok && r < |s.requests| && s.requests[r].kind.Authenticates() ==> Granted(s.log, r)
    ensures Inv(Return(s, r, ok))
    ensures Return(s, r, ok).log == s.log + [Replied(r, ok)]
  {
    var e := Replied(r, ok);
    RequestsKept(s.requests, s.log, e);
    ThroughoutNext(s.log, e, Just);
    if ok && r < |s.requests| && s.requests[r].kind.Authenticates() {
      GrantStays(s.log, e, r);
    }
  }

  lemma TransmitKeeps(s: State, r: nat, written: bool)
    requires Inv(s)
    ensures Inv(Transmit(s, r, written))
  {
    if written {
      RequestsKept(s.requests, s.log, Sent(r));
      ThroughoutNext(s.log, Sent(r), Just);
      assert Came([]) == [];
      hide RequestsOk, Throughout, Granted, Came;
    } else {
      var armed := s.(link := s.link.(response := Oneshot(true, Waiting)));
      ReturnKeeps(armed, r, false);
      ReturnKeeps(armed.(coord := s.coord.(progress := Failed)), r, false);
      hide Inv;
    }
  }

  lemma FirstAnswerNext(frames: seq<Frame>, f: Frame)
    ensures FirstAnswer(frames + [f]) ==
      if FirstAnswer(frames).Some? then FirstAnswer(frames) else if IsAnswer(f) then Some(f.bytes) else None
  {
    assert (frames + [f])[..|frames|] == frames;
  }

  lemma CommandHolds(l: Link, r: nat, frames: seq<Frame>, f: Frame)
    requires Holds(l, CommandWait(r), frames) && Waits.Agree(l, CommandWait(r))
    ensures Holds(Route(l, f).link, CommandWait(r), frames + [f])
  {
    ResponseStep(l, f);
    FirstAnswerNext(frames, f);
    hide Route, FirstAnswer, IsAnswer;
  }

  lemma AuthHolds(l: Link, r: nat, frames: seq<Frame>, f: Frame)
    requires Holds(l, AuthWait(r), frames)
    ensures Holds(Route(l, f).link, AuthWait(r), frames + [f])
  {
    assert (frames + [f])[..|frames|] == frames;
    VerdictStep(frames + [f]);
    hide Route, Verdict, Mismatches, AuthOpen, AuthEnded;
    match Verdict(frames)
    case Some(result) => AuthStays(l, result.passed, f);
    case None => AuthStep(l, Mismatches(frames), f);
  }

  lemma DeliverKeepsWait(s: State, f: Frame)
    requires WaitOk(s) && Waits.Inv(s) && Listening(s)
    ensures WaitOk(DeliverStep(s, f))
  {
    hide Route, Holds, Since;
    if s.pc.CommandWait? || s.pc.AuthWait? {
      SinceNext(s.log, Received(f, Quiet(s.link)), s.since);
      if s.pc.CommandWait? {
        CommandHolds(s.link, s.pc.r, Since(s.log, s.since, |s.log|), f);
      } else {
        AuthHolds(s.link, s.pc.r, Since(s.log, s.since, |s.log|), f);
      }
    }
  }

  lemma DeliverKeeps(s: State, f: Frame)
    requires Inv(s) && Waits.Inv(s)
    ensures Inv(DeliverStep(s, f))
  {
    if Listening(s) {
      var e := Received(f, Quiet(s.link));
      hide Route, WaitOk, RequestsOk, Throughout;
      DeliverKeepsWait(s, f);
      RequestsKept(s.requests, s.log, e);
      ThroughoutNext(s.log, e, Just);
    }
  }

  lemma OpenAuthKeeps(s: State, r: nat)
    requires Inv(s) && Waits.Inv(s) && s.pc == CommandWait(r)
    ensures Inv(OpenAuth(s, r))
  {
    RequestsKept(s.requests, s.log, AuthOpened(r));
    ThroughoutNext(s.log, AuthOpened(r), Just);
    assert Came([]) == [];
    hide RequestsOk, Throughout, Granted, Came;
  }

  /** A wait that yields a success was granted by the device. */
  lemma SuccessIsGranted(s: State)
    requires WaitOk(s)
    ensures s.pc.CommandWait? && s.link.response.rx.Got? && s.link.response.rx.value != [] && s.link.response.rx.value[0] == OK
      ==> Granted(s.log, s.pc.r)
    ensures s.pc.AuthWait? && s.link.auth.rx == Got(true) ==> Granted(s.log, s.pc.r)
  {
    hide Underway, FirstAnswer, Verdict, Since;
    if s.pc.CommandWait? {
      assert s.link.response.rx.Got? && s.link.response.rx.value != [] && s.link.response.rx.value[0] == OK
        ==> AnsweredOk(s.log, s.since, |s.log|, s.pc.r);
    } else if s.pc.AuthWait? {
      assert s.link.auth.rx == Got(true) ==> AuthPassed(s.log, s.since, |s.log|, s.pc.r);
    }
  }

  lemma OpenGateKeeps(s: State, r: nat)
    requires Inv(s) && r < |s.requests| && !s.requests[r].kind.Authenticates()
    ensures Inv(OpenGate(s, r))
  {
    RequestsKept(s.requests, s.log, GateOpened(r));
    ThroughoutNext(s.log, GateOpened(r), Just);
    hide RequestsOk, Throughout, Granted;
  }

  lemma CloseGateKeeps(s: State, r: nat, ok: bool)
    requires Inv(s) && r < |s.requests| && !s.requests[r].kind.Authenticates()
    ensures Inv(CloseGate(s, r, ok))
  {
    ReturnKeeps(s.(link := s.link.(gatePending := false, gate := s.link.gate.Drop()), coord := s.coord.(gateActive := false)), r, ok);
    hide RequestsOk, WaitOk, Throughout, Granted, KindOk;
    LogKeeps(Return(s.(link := s.link.(gatePending := false, gate := s.link.gate.Drop()), coord := s.coord.(gateActive := false)), r, ok),
             GateClosed(r));
  }

  lemma AnsweredKeeps(s: State, r: nat, answer: Bytes)
    requires Inv(s) && Waits.Inv(s) && s.pc == CommandWait(r) && r < |s.requests|
    requires answer != [] && answer[0] == OK ==> Granted(s.log, r)
    ensures Inv(Answered(s, r, answer))
  {
    hide RequestsOk, Throughout, Granted, WaitOk, Waits.Inv;
    ReturnKeeps(s, r, answer != [] && answer[0] == OK);
    ReturnKeeps(s, r, false);
    if s.requests[r].kind.Plain? {
      ReturnKeeps(s, r, true);
    }
    OpenAuthKeeps(s, r);
    if s.requests[r].kind.Gated? || s.requests[r].kind.Secret? {
      OpenGateKeeps(s, r);
    }
    hide Inv, Return, OpenAuth, OpenGate;
  }

  lemma ResolveKeeps(s: State)
    requires Inv(s) && Waits.Inv(s)
    ensures Inv(ResolveStep(s))
  {
    if s.call == Free {
      SuccessIsGranted(s);
      hide RequestsOk, Throughout, Granted, WaitOk, Waits.Inv;
      match s.pc
      case CommandWait(r) =>
        if s.link.response.rx.Got? && r < |s.requests| {
          AnsweredKeeps(s, r, s.link.response.rx.value);
          hide Answered;
        }
      case AuthWait(r) =>
        if s.link.auth.rx.Got? {
          ReturnKeeps(s.(link := s.link.(authPending := false, auth := s.link.auth.Drop())), r, s.link.auth.rx.value);
        }
      case GateWait(r) =>
        if s.link.gate.rx.Got? {
          CloseGateKeeps(s, r, s.link.gate.rx.value.passed);
        }
      case _ =>
    }
  }

  /** Moving the worker off its wait, or clearing link state, asks nothing of the log. */
  lemma MoveKeeps(s: State, t: State)
    requires Inv(s) && t.requests == s.requests && t.log == s.log && KindOk(t)
    requires !t.pc.CommandWait? && !t.pc.AuthWait?
    ensures Inv(t)
  {
  }

  lemma SeeCancelKeeps(s: State)
    requires Inv(s)
    ensures Inv(SeeCancelStep(s))
  {
    var t := SeeCancelStep(s);
    if t != s {
      var moved := t.(log := s.log);
      MoveKeeps(s, moved);
      hide RequestsOk, Throughout, Granted, WaitOk;
      LogKeeps(moved, if s.pc.GateWait? then GateKilled(s.pc.r) else AuthKilled(s.pc.r));
    }
  }

  lemma EndKeeps(s: State)
    requires Inv(s)
    ensures Inv(CloseStep(s)) && Inv(ExpireStep(s))
  {
    hide RequestsOk, Throughout, Granted, WaitOk;
    match s.pc
    case AuthClosing(r) => ReturnKeeps(s.(link := s.link.(authPending := false, auth := s.link.auth.Drop())), r, false);
    case AuthWait(r) => ReturnKeeps(s.(link := s.link.(authPending := false, auth := s.link.auth.Drop())), r, false);
    case GateClosing(r) => CloseGateKeeps(s, r, false);
    case GateWait(r) => CloseGateKeeps(s, r, false);
    case CommandWait(r) =>
      ReturnKeeps(s.(link := s.link.(response := s.link.response.Drop())), r, false);
      ExpirePairKeeps(s, r);
    case ButtonWait(r) => ExpirePairKeeps(s, r);
    case PairFpWait(r) => ExpirePairKeeps(s, r);
    case Main =>
  }

  lemma ExpirePairKeeps(s: State, r: nat)
    requires Inv(s)
    ensures Inv(ReturnPairing(EndPairWaits(s).(link := EndPairWaits(s).link.(response := s.link.response.Drop())), r, false))
  {
    var ended := EndPairWaits(s).(link := EndPairWaits(s).link.(response := s.link.response.Drop()));
    ReturnKeeps(ended.(coord := s.coord.(progress := Failed)), r, false);
  }

  lemma PairingKeeps(s: State, written: bool, ok: bool)
    requires Inv(s)
    ensures Inv(PairAgainStep(s, written)) && Inv(PairEndStep(s, ok))
  {
    if s.call == Free && InPairing(s) {
      var r := s.pc.r;
      var ended := EndPairWaits(s);
      ReturnKeeps(ended.(coord := s.coord.(progress := if ok then Done else Failed)), r, ok);
      SameKeeps(s, ended);
      hide Inv;
      TransmitKeeps(ended, r, written);
    }
  }

  lemma PairWaitKeeps(s: State, secondHost: bool)
    requires Inv(s)
    ensures Inv(PairButtonStep(s, secondHost)) && Inv(PairFpStep(s))
  {
    hide RequestsOk, Throughout, WaitOk;
    if PairButtonStep(s, secondHost) != s {
      MoveKeeps(s, PairButtonStep(s, secondHost));
    }
    if PairFpStep(s) != s {
      MoveKeeps(s, PairFpStep(s));
    }
  }

  lemma ApproveKeeps(s: State, ok: bool)
    requires Inv(s) && s.call == Approving && s.coord.pendingPam.Some?
    ensures Inv(ProceedStep(s, ok))
  {
    var r := s.coord.pendingPam.value;
    LogKeeps(s, SlotApproved(r));
    var taken := Log(s, SlotApproved(r));
    var told := s.(call := Stamping, coord := s.coord.(pendingPam := None));
    if r < |s.requests| {
      var q := s.requests[r].(pending := Got(true));
      assert RequestOk(taken.requests[r], r, taken.log);
      PutKeeps(taken, r, q);
      hide Inv, RequestOk;
      SameKeeps(Put(taken, r, q), Put(Log(told, SlotApproved(r)), r, q));
    } else {
      hide Inv, RequestOk;
      SameKeeps(taken, Log(told, SlotApproved(r)));
    }
  }

  lemma ProceedKeeps(s: State, ok: bool)
    requires Inv(s)
    ensures Inv(ProceedStep(s, ok))
  {
    var free := s.(call := Free);
    SameKeeps(s, free);
    hide Inv, ArmWindow;
    match s.call
    case Free =>
    case Approving =>
      if s.coord.pendingPam.Some? {
        ApproveKeeps(s, ok);
      } else {
        SameKeeps(s, s.(call := CheckingUnlock));
      }
    case Following => ArmKeeps(free, UNLOCK_WINDOW, UNLOCK_SERVICES, None);
    case Unlocking => ArmKeeps(free, UNLOCK_WINDOW, UNLOCK_SERVICES, None);
    case Clearing =>
      LogKeeps(s, WindowCleared);
      SameKeeps(Log(s, WindowCleared), ProceedStep(s, ok));
    case _ => SameKeeps(s, ProceedStep(s, ok));
  }

  lemma DisconnectKeeps(s: State)
    requires Inv(s)
    ensures Inv(DisconnectStep(s))
  {
    hide RequestsOk, Throughout, Granted;
  }

  lemma WorkerKeeps(s: State, a: Action)
    requires Inv(s) && Waits.Inv(s) && !IsHandler(a) && !(a.Tick? || a.Screen? || a.Settings? || a.Arrive?)
    ensures Inv(WorkerStep(s, a))
  {
    hide Inv, Waits.Inv, DeliverStep, ResolveStep, SeeCancelStep, CloseStep, ExpireStep,
         PairAgainStep, PairButtonStep, PairFpStep, PairEndStep, ProceedStep, Transmit;
    match a
    case CancelGate =>
      LogKeeps(s, Notified(true));
      SameKeeps(Log(s, Notified(true)), Log(s, Notified(true)).(coord := s.coord.(gatePermit := true)));
    case Fetch(written) =>
      if s.pc == Main && s.queue != [] {
        SameKeeps(s, s.(queue := s.queue[1..]));
        TransmitKeeps(s.(queue := s.queue[1..]), s.queue[0], written);
      }
    case Deliver(frame) => DeliverKeeps(s, frame);
    case Resolve => ResolveKeeps(s);
    case SeeCancel => SeeCancelKeeps(s);
    case Close => EndKeeps(s);
    case Expire => EndKeeps(s);
    case Disconnect => DisconnectKeeps(s);
    case PairAgain(written) => PairingKeeps(s, written, true);
    case PairButton(secondHost) => PairWaitKeeps(s, secondHost);
    case PairFp => PairWaitKeeps(s, true);
    case PairEnd(ok) => PairingKeeps(s, true, ok);
    case Proceed(ok) => ProceedKeeps(s, ok);
  }

  lemma WorldKeeps(s: State, a: Action)
    requires Inv(s) && (a.Tick? || a.Screen? || a.Settings? || a.Arrive?)
    ensures Inv(WorldStep(s, a))
  {
    hide Throughout, Granted;
  }

  /** The invariant of every run. */
  lemma {:induction false} RunKeeps(actions: seq<Action>)
    ensures Inv(Run(actions))
  {
    if actions == [] {
    } else {
      var s, a := Run(actions[..|actions| - 1]), actions[|actions| - 1];
      RunKeeps(actions[..|actions| - 1]);
      Waits.RunKeeps(actions[..|actions| - 1]);
      hide Inv, Waits.Inv, WorldStep, HandlerStep, WorkerStep;
      if a.Tick? || a.Screen? || a.Settings? || a.Arrive? {
        WorldKeeps(s, a);
      } else if IsHandler(a) {
        HandlerKeeps(s, a);
      } else {
        WorkerKeeps(s, a);
      }
    }
  }

  /**
   * In every interleaving, a request that was answered OK was accepted, and was accepted for a cause of its own: a slot
   * approval sent to it, or a success of its own command, which the device gave as the command's first answer or as the
   * frame that settled the authentication it had opened.
   */
  lemma ApprovalsHaveCauses(actions: seq<Action>, i: nat, r: nat, kind: Kind)
    requires i < |Run(actions).log| && Run(actions).log[i] == Approved(r, kind)
    ensures exists j: nat :: j < i && Run(actions).log[j] == Accepted(r, kind) && Caused(Run(actions).log[..j], r)
  {
    RunKeeps(actions);
    var log := Run(actions).log;
    assert Just(log[..i], log[i]);
    AcceptedHaveCauses(log, i, r, kind);
  }

  lemma AcceptedHaveCauses(log: seq<Event>, i: nat, r: nat, kind: Kind)
    requires Throughout(log, Just) && i <= |log| && Accepted(r, kind) in log[..i]
    ensures exists j: nat :: j < i && log[j] == Accepted(r, kind) && Caused(log[..j], r)
  {
    var j: nat :| j < |log[..i]| && log[..i][j] == Accepted(r, kind);
    assert Just(log[..j], log[j]);
  }
}
