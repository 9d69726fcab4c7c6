/** In every run: the one pending slot, who waits on it, and whom clearing it denies. */
module DaemonSlot {
  import opened Wire
  import opened Link
  import opened Coordinator
  import opened Daemon
  import opened DaemonHistory
  import opened DaemonRuns

  /** A waiting channel belongs to a live claimant; a racing one has claimed. */
  predicate RequestOk(q: Request) {
    && (q.pending == Waiting ==> q.kind.Claims() && (q.phase == Racing || q.phase.Decided?))
    && (q.kind.Claims() && q.phase == Racing ==> q.pending != Dropped)
  }

  /** The slot holds exactly the sender of the one request still waiting on it. */
  ghost predicate Inv(s: State) {
    && (s.coord.pendingPam.Some? ==> s.coord.pendingPam.value < |s.requests|)
    && forall r :: 0 <= r < |s.requests| ==>
         RequestOk(s.requests[r]) && (s.requests[r].pending == Waiting <==> s.coord.pendingPam == Some(r))
  }

  lemma SameKeeps(s: State, t: State)
    requires Inv(s) && t.requests == s.requests && t.coord.pendingPam == s.coord.pendingPam
    ensures Inv(t)
  {
  }

  /** A handler may move on as long as its channel stays what it was. */
  lemma PutKeeps(s: State, r: nat, q: Request)
    requires Inv(s) && r < |s.requests| && RequestOk(q) && q.pending == s.requests[r].pending
    ensures Inv(Put(s, r, q))
  {
  }

  lemma ClaimKeeps(s: State, r: nat)
    requires Inv(s) && r < |s.requests|
    ensures Inv(ClaimStep(s, r, s.requests[r]))
  {
  }

  /** Whoever is told through the slot, the slot is empty and nobody waits on it afterwards. */
  lemma TellKeeps(s: State, x: nat, verdict: bool)
    requires Inv(s) && s.coord.pendingPam == Some(x)
    ensures x < |s.requests|
    ensures Inv(Put(s, x, s.requests[x].(pending := Got(verdict))).(coord := s.coord.(pendingPam := None)))
  {
  }

  lemma ClearKeeps(s: State, r: nat)
    requires Inv(s) && r < |s.requests|
    ensures Inv(ClearStep(s, r, s.requests[r]))
  {
    var q := s.requests[r];
    if q.phase.Decided? {
      var cleared := q.(phase := Cleared(q.phase.ok));
      match s.coord.pendingPam
      case None =>
        assert RequestOk(cleared);
        PutKeeps(s, r, cleared);
      case Some(x) =>
        TellKeeps(s, x, false);
        var told := Put(s, x, s.requests[x].(pending := Got(false))).(coord := s.coord.(pendingPam := None));
        var after := told.requests[r].(phase := Cleared(q.phase.ok));
        assert told.requests[r].phase == q.phase && told.requests[r].pending != Waiting;
        PutKeeps(told, r, after);
        var t := ClearStep(s, r, q);
        hide Inv;
        assert t.requests == Put(told, r, after).requests;
        SameKeeps(Put(told, r, after), t);
    }
  }

  lemma DecideKeeps(s: State, r: nat, ok: bool)
    requires Inv(s) && r < |s.requests| && s.requests[r].kind.Claims() && s.requests[r].phase == Racing
    ensures Inv(Decide(s, r, s.requests[r], ok))
  {
    var decided := s.requests[r].(phase := Decided(ok));
    PutKeeps(s, r, decided);
    hide Inv;
    SameKeeps(Put(s, r, decided), Decide(s, r, s.requests[r], ok));
  }

  lemma MoveKeeps(s: State, r: nat, phase: Phase)
    requires Inv(s) && r < |s.requests| && s.requests[r].pending != Waiting
    requires phase == Racing ==> !s.requests[r].kind.Claims()
    ensures Inv(Put(s, r, s.requests[r].(phase := phase)))
  {
  }

  lemma CheckWindowKeeps(s: State, r: nat)
    requires Inv(s) && r < |s.requests|
    ensures Inv(CheckWindowStep(s, r, s.requests[r]))
  {
    var q := s.requests[r];
    if q.kind.Pam? && q.phase == Fresh {
      assert RequestOk(q);
      MoveKeeps(s, r, Finished);
      MoveKeeps(s, r, Unwindowed);
      hide Inv, Admits;
      SameKeeps(Put(s, r, q.(phase := Finished)), Log(Put(s, r, q.(phase := Finished)), Windowed(r, q.kind.service, s.now)));
    }
  }

  lemma EnqueueKeeps(s: State, r: nat)
    requires Inv(s) && r < |s.requests|
    ensures Inv(EnqueueStep(s, r, s.requests[r]))
  {
    var q := s.requests[r];
    assert RequestOk(q);
    if EnqueueStep(s, r, q) != s {
      var queued := q.(phase := Racing, sent := true, reply := Waiting);
      if q.pending != Waiting {
        MoveKeeps(s, r, Finished);
      }
      PutKeeps(s, r, queued);
      hide Inv, RequestOk;
      SameKeeps(Put(s, r, queued), Put(s, r, queued).(queue := s.queue + [r]));
      SameKeeps(Put(s, r, queued), Put(s, r, queued).(queue := s.queue + [r], coord := s.coord.(progress := Idle)));
    }
  }

  lemma TakeKeeps(s: State, r: nat)
    requires Inv(s) && r < |s.requests|
    ensures Inv(TakeReplyStep(s, r, s.requests[r])) && Inv(TakePendingStep(s, r, s.requests[r]))
  {
    var q := s.requests[r];
    assert RequestOk(q);
    if q.phase == Racing {
      if q.kind.Claims() {
        DecideKeeps(s, r, true);
        DecideKeeps(s, r, false);
        assert Decide(s, r, q, false) == Put(s, r, q.(phase := Decided(false)));
      } else {
        MoveKeeps(s, r, Finished);
      }
      hide Inv, RequestOk, Decide;
    }
  }

  lemma CancelKeeps(s: State, r: nat)
    requires Inv(s) && r < |s.requests|
    ensures Inv(CancelStep(s, r, s.requests[r]))
  {
    var q := s.requests[r];
    assert RequestOk(q);
    if q.phase == Racing {
      if q.kind.Authenticates() {
        DecideKeeps(s, r, false);
        hide Inv, RequestOk;
        var denied := Decide(s, r, q, false);
        SameKeeps(denied, Log(denied, DialogNotified(r)).(coord := s.coord.(authPermit := true)));
      } else if q.kind.Gated? {
        MoveKeeps(s, r, Finished);
        hide Inv, RequestOk;
        SameKeeps(Put(s, r, q.(phase := Finished)), CancelStep(s, r, q));
      }
    }
  }

  lemma AnswerKeeps(s: State, r: nat)
    requires Inv(s) && r < |s.requests|
    ensures Inv(BridgeStep(s, r, s.requests[r])) && Inv(AnswerStep(s, r, s.requests[r]))
  {
    var q := s.requests[r];
    assert RequestOk(q);
    if q.phase.Cleared? || q.phase == Bridged {
      MoveKeeps(s, r, Finished);
      MoveKeeps(s, r, Bridged);
      var done, bridged := Put(s, r, q.(phase := Finished)), Put(s, r, q.(phase := Bridged));
      hide Inv, RequestOk, Arm;
      SameKeeps(done, Log(done, Approved(r, q.kind)));
      SameKeeps(bridged, ArmWindow(bridged, SUDO_WINDOW, SUDO_SERVICES, Some(r)));
    }
  }

  lemma HandlerKeeps(s: State, a: Action)
    requires Inv(s) && IsHandler(a)
    ensures Inv(HandlerStep(s, a))
  {
    hide Inv, CheckWindowStep, ClaimStep, EnqueueStep, TakeReplyStep, TakePendingStep, CancelStep, ClearStep, BridgeStep, AnswerStep;
    if a.r < |s.requests| {
      CheckWindowKeeps(s, a.r);
      ClaimKeeps(s, a.r);
      EnqueueKeeps(s, a.r);
      TakeKeeps(s, a.r);
      CancelKeeps(s, a.r);
      ClearKeeps(s, a.r);
      AnswerKeeps(s, a.r);
    }
  }

  /** The worker hands out replies and approves the slot; it touches no channel otherwise. */
  lemma ReturnKeeps(s: State, r: nat, ok: bool)
    requires Inv(s)
    ensures Inv(Return(s, r, ok))
  {
    var back := Log(s.(pc := Main), Replied(r, ok));
    if r < |s.requests| {
      PutKeeps(s, r, s.requests[r].(reply := Got(ok)));
      hide Inv;
      SameKeeps(Put(s, r, s.requests[r].(reply := Got(ok))), Return(s, r, ok));
    }
  }

  lemma ReturnPairingKeeps(s: State, r: nat, ok: bool)
    requires Inv(s)
    ensures Inv(ReturnPairing(s, r, ok))
  {
    hide Inv, Return;
    var done := s.(coord := s.coord.(progress := if ok then Done else Failed));
    SameKeeps(s, done);
    ReturnKeeps(done, r, ok);
  }

  lemma TransmitKeeps(s: State, r: nat, written: bool)
    requires Inv(s)
    ensures Inv(Transmit(s, r, written))
  {
    hide Inv, Return, ReturnPairing;
    var armed := s.(link := s.link.(response := Oneshot(true, Waiting)));
    SameKeeps(s, armed);
    SameKeeps(s, Log(armed.(pc := CommandWait(r), since := |s.log|), Sent(r)));
    ReturnKeeps(armed, r, false);
    ReturnPairingKeeps(armed, r, false);
  }

  lemma CloseKeeps(s: State, r: nat, ok: bool)
    requires Inv(s)
    ensures Inv(CloseAuth(s, r, ok)) && Inv(CloseGate(s, r, ok))
  {
    hide Inv, Return;
    var auth := s.(link := s.link.(authPending := false, auth := s.link.auth.Drop()));
    var gate := s.(link := s.link.(gatePending := false, gate := s.link.gate.Drop()), coord := s.coord.(gateActive := false));
    SameKeeps(s, auth);
    SameKeeps(s, gate);
    ReturnKeeps(auth, r, ok);
    ReturnKeeps(gate, r, ok);
    SameKeeps(Return(gate, r, ok), CloseGate(s, r, ok));
  }

  lemma AnsweredKeeps(s: State, r: nat, answer: Bytes)
    requires Inv(s)
    ensures Inv(Answered(s, r, answer))
  {
    hide Inv, Return;
    ReturnKeeps(s, r, true);
    ReturnKeeps(s, r, false);
    SameKeeps(s, OpenAuth(s, r));
    SameKeeps(s, OpenGate(s, r));
  }

  lemma ResolveKeeps(s: State)
    requires Inv(s)
    ensures Inv(ResolveStep(s))
  {
    hide Inv, Answered, CloseAuth, CloseGate;
    match s.pc
    case CommandWait(r) =>
      if s.link.response.rx.Got? {
        AnsweredKeeps(s, r, s.link.response.rx.value);
      }
    case AuthWait(r) =>
      if s.link.auth.rx.Got? {
        CloseKeeps(s, r, s.link.auth.rx.value);
      }
    case GateWait(r) =>
      if s.link.gate.rx.Got? {
        CloseKeeps(s, r, s.link.gate.rx.value.passed);
      }
    case _ =>
  }

  lemma EndKeeps(s: State)
    requires Inv(s)
    ensures Inv(CloseStep(s)) && Inv(ExpireStep(s))
  {
    hide Inv, Return, ReturnPairing, CloseAuth, CloseGate;
    if s.pc != Main {
      var r := s.pc.r;
      CloseKeeps(s, r, false);
      var dropped := s.(link := s.link.(response := s.link.response.Drop()));
      var ended := EndPairWaits(s).(link := EndPairWaits(s).link.(response := s.link.response.Drop()));
      SameKeeps(s, dropped);
      SameKeeps(s, ended);
      ReturnKeeps(dropped, r, false);
      ReturnPairingKeeps(ended, r, false);
    }
  }

  lemma PairingKeeps(s: State, written: bool, ok: bool)
    requires Inv(s)
    ensures Inv(PairAgainStep(s, written)) && Inv(PairEndStep(s, ok))
  {
    hide Inv, ReturnPairing, Transmit;
    if InPairing(s) {
      SameKeeps(s, EndPairWaits(s));
      TransmitKeeps(EndPairWaits(s), s.pc.r, written);
      ReturnPairingKeeps(EndPairWaits(s), s.pc.r, ok);
    }
  }

  lemma ApproveKeeps(s: State, x: nat, ok: bool)
    requires Inv(s) && s.call == Approving && s.coord.pendingPam == Some(x)
    ensures Inv(ProceedStep(s, ok))
  {
    TellKeeps(s, x, true);
    var told := Put(s, x, s.requests[x].(pending := Got(true))).(coord := s.coord.(pendingPam := None));
    hide Inv;
    SameKeeps(told, ProceedStep(s, ok));
  }

  lemma ProceedKeeps(s: State, ok: bool)
    requires Inv(s)
    ensures Inv(ProceedStep(s, ok))
  {
    if s.call == Approving && s.coord.pendingPam.Some? {
      ApproveKeeps(s, s.coord.pendingPam.value, ok);
    } else {
      hide Inv, Arm;
      SameKeeps(s, ProceedStep(s, ok));
    }
  }

  /** Steps that leave requests and slot alone. */
  lemma RestKeeps(s: State, frame: Frame, secondHost: bool)
    requires Inv(s)
    ensures Inv(DeliverStep(s, frame)) && Inv(SeeCancelStep(s)) && Inv(DisconnectStep(s)) && Inv(CancelGateStep(s))
    ensures Inv(PairButtonStep(s, secondHost)) && Inv(PairFpStep(s))
  {
    hide Inv, Route, CallFor, ProgressAfter, Quiet;
    SameKeeps(s, DeliverStep(s, frame));
    SameKeeps(s, SeeCancelStep(s));
    SameKeeps(s, DisconnectStep(s));
    SameKeeps(s, CancelGateStep(s));
    SameKeeps(s, PairButtonStep(s, secondHost));
    SameKeeps(s, PairFpStep(s));
  }

  lemma WorkerKeeps(s: State, a: Action)
    requires Inv(s) && !IsHandler(a) && !(a.Tick? || a.Screen? || a.Settings? || a.Arrive?)
    ensures Inv(WorkerStep(s, a))
  {
    hide Inv, DeliverStep, ResolveStep, SeeCancelStep, CloseStep, ExpireStep, DisconnectStep,
         PairAgainStep, PairButtonStep, PairFpStep, PairEndStep, ProceedStep, CancelGateStep, Transmit;
    match a
    case Fetch(written) =>
      if s.pc == Main && s.queue != [] {
        SameKeeps(s, s.(queue := s.queue[1..]));
        TransmitKeeps(s.(queue := s.queue[1..]), s.queue[0], written);
      }
    case Deliver(frame) => RestKeeps(s, frame, true);
    case Resolve => ResolveKeeps(s);
    case PairAgain(written) => PairingKeeps(s, written, true);
    case PairEnd(ok) => PairingKeeps(s, true, ok);
    case Proceed(ok) => ProceedKeeps(s, ok);
    case PairButton(secondHost) => RestKeeps(s, ASKED, secondHost);
    case _ =>
      RestKeeps(s, ASKED, true);
      EndKeeps(s);
  }

  lemma WorldKeeps(s: State, a: Action)
    requires Inv(s) && (a.Tick? || a.Screen? || a.Settings? || a.Arrive?)
    ensures Inv(WorldStep(s, a))
  {
  }

  lemma {:induction false} RunKeeps(actions: seq<Action>)
    ensures Inv(Run(actions))
  {
    if actions != [] {
      var s, a := Run(actions[..|actions| - 1]), actions[|actions| - 1];
      RunKeeps(actions[..|actions| - 1]);
      hide Inv, WorldStep, HandlerStep, WorkerStep;
      if a.Tick? || a.Screen? || a.Settings? || a.Arrive? {
        WorldKeeps(s, a);
      } else if IsHandler(a) {
        HandlerKeeps(s, a);
      } else {
        WorkerKeeps(s, a);
      }
    }
  }

  /** Whoever races on the slot either holds it or has been told: a claim is never overwritten and left hanging. */
  lemma NoClaimIsOrphaned(actions: seq<Action>, r: nat)
    requires r < |Run(actions).requests|
    requires Run(actions).requests[r].kind.Claims() && Run(actions).requests[r].phase == Racing
    ensures Run(actions).coord.pendingPam == Some(r) <==> !Run(actions).requests[r].pending.Got?
  {
    RunKeeps(actions);
    assert RequestOk(Run(actions).requests[r]);
  }

  /**
   * A decided handler clears the slot on its way out. It denies itself exactly while its own channel is unresolved;
   * once a touch has approved it, it denies whichever other request has claimed the slot since, which is still
   * undecided or about to be told.
   */
  lemma WhomClearingDenies(actions: seq<Action>, r: nat)
    requires r < |Run(actions).requests| && Run(actions).requests[r].phase.Decided?
    ensures var s := Run(actions);
      var t := Next(s, Clear(r));
      match s.coord.pendingPam
      case None => t.log == s.log
      case Some(x) =>
        && t.log == s.log + [SlotDenied(x, r)] && x < |s.requests| && t.requests[x].pending == Got(false)
        && (x == r <==> s.requests[r].pending == Waiting)
        && s.requests[x].kind.Claims() && (s.requests[x].phase == Racing || s.requests[x].phase.Decided?)
  {
    var s := Run(actions);
    RunKeeps(actions);
    if s.coord.pendingPam.Some? {
      assert RequestOk(s.requests[s.coord.pendingPam.value]);
    }
    hide Run;
  }

  const TOUCH: Frame := Frame([FP_MATCH, 0, 0, 1, 2, 3, 4, 5, 6, 7, 8], true)

  function Waiter(kind: Kind): Request {
    Request(kind, Racing, false, Waiting, Dropped)
  }

  const SUDO: Kind := Pam("sudo")
  const TOUCHED: seq<Event> := [Received(TOUCH, true), SlotApproved(0)]

  /** A sudo request claims the slot. */
  lemma SudoClaims() returns (s: State)
    ensures Reachable(s) && s == START.(requests := [Waiter(SUDO)], coord := START.coord.(pendingPam := Some(0)))
  {
    StartReachable();
    hide Reachable;
    var arrived := Request(SUDO, Fresh, false, Dropped, Dropped);
    var s1 := START.(requests := [arrived]);
    ReachNext(START, Arrive(SUDO), s1);
    var s2 := START.(requests := [arrived.(phase := Unwindowed)]);
    ReachNext(s1, CheckWindow(0), s2);
    s := START.(requests := [Waiter(SUDO)], coord := START.coord.(pendingPam := Some(0)));
    ReachNext(s2, Claim(0), s);
  }

  /** A touch approves it. */
  lemma TouchApproves() returns (s: State)
    ensures Reachable(s) && s.requests == [Waiter(SUDO).(pending := Got(true))] && s.coord.pendingPam == None && s.log == TOUCHED
  {
    var s3 := SudoClaims();
    MatchNeedsGenuineIdle(NO_WAIT, TOUCH);
    var s4 := s3.(log := [Received(TOUCH, true)], call := Approving);
    hide Route, Reachable, LittleEndian;
    assert Next(s3, Deliver(TOUCH)) == s4;
    ReachNext(s3, Deliver(TOUCH), s4);
    s := s4.(call := Stamping, coord := START.coord, requests := [Waiter(SUDO).(pending := Got(true))], log := s4.log + [SlotApproved(0)]);
    assert s.requests == s4.requests[0 := Waiter(SUDO).(pending := Got(true))];
    ReachNext(s4, Proceed(true), s);
  }

  /** Before the sudo handler gets around to it, an agent request claims the emptied slot. */
  lemma AgentClaims() returns (s: State)
    ensures Reachable(s) && s.requests == [Waiter(SUDO).(pending := Got(true)), Waiter(Agent)]
    ensures s.coord.pendingPam == Some(1) && s.log == TOUCHED
  {
    var s0 := TouchApproves();
    hide Reachable;
    var arrived := Request(Agent, Fresh, false, Dropped, Dropped);
    var s1 := s0.(requests := [s0.requests[0], arrived]);
    assert s1.requests == s0.requests + [arrived];
    ReachNext(s0, Arrive(Agent), s1);
    s := s0.(requests := [s0.requests[0], Waiter(Agent)], coord := s0.coord.(pendingPam := Some(1)));
    assert s.requests == s1.requests[1 := Waiter(Agent)];
    ReachNext(s1, Claim(1), s);
  }

  lemma SudoClears() returns (s: State)
    ensures Reachable(s) && |s.requests| == 2 && s.requests[1] == Waiter(Agent).(pending := Got(false))
    ensures s.log == TOUCHED + [Accepted(0, SUDO), SlotDenied(1, 0)]
  {
    var s0 := AgentClaims();
    hide Reachable;
    var decided := s0.requests[0].(phase := Decided(true));
    var s1 := s0.(requests := s0.requests[0 := decided], log := s0.log + [Accepted(0, SUDO)]);
    ReachNext(s0, TakePending(0), s1);
    s := s1.(requests := s1.requests[0 := decided.(phase := Cleared(true))][1 := Waiter(Agent).(pending := Got(false))],
             coord := s0.coord.(pendingPam := None), log := s1.log + [SlotDenied(1, 0)]);
    ReachNext(s1, Clear(0), s);
  }

  /** A run in which a request nobody refused is denied, by the handler that a touch had just approved. */
  lemma FinishedHandlerDeniesAnother()
    ensures exists s ::
      && Reachable(s) && |s.requests| == 2 && s.requests[1].kind == Agent && s.requests[1].phase == Decided(false)
      && s.log == TOUCHED + [Accepted(0, SUDO), SlotDenied(1, 0)]
  {
    var s0 := SudoClears();
    hide Reachable;
    var s1 := s0.(requests := s0.requests[1 := s0.requests[1].(phase := Decided(false))]);
    ReachNext(s0, TakePending(1), s1);
  }
}
