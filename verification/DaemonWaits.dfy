/** In every run: flags, senders and the worker's position agree, and no wait is left without an end. */
module DaemonWaits {
  import opened Wire
  import opened Link
  import opened Coordinator
  import opened Daemon

  predicate Agree(l: Link, pc: Pc) {
    && l.Coherent()
    && (l.gatePending ==> pc.GateWait?)
    && (l.authPending ==> pc.AuthWait?)
    && (pc.GateWait? ==> l.gatePending || l.gate.rx.Got?)
    && (pc.AuthWait? ==> l.authPending || l.auth.rx.Got?)
    && (l.pairFpGate <==> pc.PairFpWait?)
    && (l.buttonPending <==> pc.ButtonWait?)
    && (l.button.armed ==> l.buttonPending)
  }

  predicate Inv(s: State) {
    Agree(s.link, s.pc)
  }

  /** A frame moves a wait nowhere but to its result, and leaves the pairing flags alone. */
  lemma RouteMovesOn(l: Link, f: Frame)
    requires l.Coherent()
    ensures var n := Route(l, f).link;
      && (n.gatePending ==> l.gatePending) && (l.gatePending && !n.gatePending ==> n.gate.rx.Got?)
      && (n.authPending ==> l.authPending) && (l.authPending && !n.authPending ==> n.auth.rx.Got?)
  {
    hide RouteMatch, LittleEndian;
  }

  lemma RouteKeepsResults(l: Link, f: Frame)
    ensures var n := Route(l, f).link;
      (!l.gate.armed ==> n.gate == l.gate) && (!l.auth.armed ==> n.auth == l.auth)
  {
    hide RouteMatch, LittleEndian;
  }

  lemma DeliverKeeps(s: State, f: Frame)
    requires Inv(s)
    ensures Inv(DeliverStep(s, f))
  {
    RouteKeepsCoherent(s.link, f);
    RouteMovesOn(s.link, f);
    RouteKeepsPairing(s.link, f);
    RouteKeepsResults(s.link, f);
    hide Route, CallFor, ProgressAfter, Quiet;
  }

  predicate Untouched(s: State, t: State) {
    t.link == s.link && t.pc == s.pc
  }

  lemma ClaimsKeep(s: State, r: nat, q: Request)
    requires r < |s.requests|
    ensures Untouched(s, CheckWindowStep(s, r, q)) && Untouched(s, ClaimStep(s, r, q)) && Untouched(s, EnqueueStep(s, r, q))
  {
    hide Admits;
  }

  lemma DecisionsKeep(s: State, r: nat, q: Request)
    requires r < |s.requests|
    ensures Untouched(s, TakeReplyStep(s, r, q)) && Untouched(s, TakePendingStep(s, r, q)) && Untouched(s, CancelStep(s, r, q))
  {
  }

  lemma EndingsKeep(s: State, r: nat, q: Request)
    requires r < |s.requests|
    ensures Untouched(s, ClearStep(s, r, q)) && Untouched(s, BridgeStep(s, r, q)) && Untouched(s, AnswerStep(s, r, q))
  {
    hide Arm;
  }

  lemma HandlerKeeps(s: State, a: Action)
    requires IsHandler(a)
    ensures Untouched(s, HandlerStep(s, a))
  {
    hide CheckWindowStep, ClaimStep, EnqueueStep, TakeReplyStep, TakePendingStep, CancelStep, ClearStep, BridgeStep, AnswerStep;
    if a.r < |s.requests| {
      ClaimsKeep(s, a.r, s.requests[a.r]);
      DecisionsKeep(s, a.r, s.requests[a.r]);
      EndingsKeep(s, a.r, s.requests[a.r]);
    }
  }

  /** Whatever is returned, the worker is back in its main loop with the link as it was. */
  lemma Returns(s: State, r: nat, ok: bool)
    ensures Return(s, r, ok).link == s.link && Return(s, r, ok).pc == Main
    ensures ReturnPairing(s, r, ok).link == s.link && ReturnPairing(s, r, ok).pc == Main
  {
  }

  lemma TransmitKeeps(s: State, r: nat, written: bool)
    requires Agree(s.link, Main)
    ensures Inv(Transmit(s, r, written))
  {
    var armed := s.(link := s.link.(response := Oneshot(true, Waiting)));
    Returns(armed, r, false);
    hide Return, ReturnPairing;
  }

  lemma CloseKeeps(s: State, r: nat, ok: bool)
    requires Inv(s)
    ensures s.pc.AuthWait? || s.pc.AuthClosing? ==> Inv(CloseAuth(s, r, ok))
    ensures s.pc.GateWait? || s.pc.GateClosing? ==> Inv(CloseGate(s, r, ok))
  {
    Returns(s.(link := s.link.(authPending := false, auth := s.link.auth.Drop())), r, ok);
    Returns(s.(link := s.link.(gatePending := false, gate := s.link.gate.Drop()), coord := s.coord.(gateActive := false)), r, ok);
    hide Return, ReturnPairing;
  }

  lemma AnsweredKeeps(s: State, r: nat, answer: Bytes)
    requires Inv(s) && s.pc == CommandWait(r)
    ensures Inv(Answered(s, r, answer))
  {
    Returns(s, r, true);
    Returns(s, r, false);
    hide Return, ReturnPairing;
  }

  lemma ResolveKeeps(s: State)
    requires Inv(s)
    ensures Inv(ResolveStep(s))
  {
    hide Inv, Answered, CloseAuth, CloseGate;
    match s.pc
    case CommandWait(r) =>
      if s.link.response.rx.Got? {
        AnsweredKeeps(s, r, s.link.response.rx.value);
      }
    case AuthWait(r) =>
      if s.link.auth.rx.Got? {
        CloseKeeps(s, r, s.link.auth.rx.value);
      }
    case GateWait(r) =>
      if s.link.gate.rx.Got? {
        CloseKeeps(s, r, s.link.gate.rx.value.passed);
      }
    case _ =>
  }

  lemma CancelKeeps(s: State)
    requires Inv(s)
    ensures Inv(SeeCancelStep(s)) && Inv(DisconnectStep(s))
  {
  }

  /** Ending the pairing waits leaves a link the main loop can go on with. */
  lemma PairWaitsEnd(s: State)
    requires Inv(s) && InPairing(s)
    ensures Agree(EndPairWaits(s).link, Main)
    ensures Agree(EndPairWaits(s).link.(response := s.link.response.Drop()), Main)
  {
  }

  lemma CloseStepKeeps(s: State)
    requires Inv(s)
    ensures Inv(CloseStep(s))
  {
    hide Inv, CloseAuth, CloseGate;
    if s.pc.AuthClosing? || s.pc.GateClosing? {
      CloseKeeps(s, s.pc.r, false);
    }
  }

  lemma ExpireKeeps(s: State)
    requires Inv(s)
    ensures Inv(ExpireStep(s))
  {
    if InPairing(s) {
      var ended := EndPairWaits(s).(link := EndPairWaits(s).link.(response := s.link.response.Drop()));
      PairWaitsEnd(s);
      hide Agree, Return, ReturnPairing, EndPairWaits;
      Returns(ended, s.pc.r, false);
    } else if s.pc.CommandWait? {
      hide Return, ReturnPairing;
      Returns(s.(link := s.link.(response := s.link.response.Drop())), s.pc.r, false);
    } else if s.pc != Main {
      hide Agree, CloseAuth, CloseGate;
      CloseKeeps(s, s.pc.r, false);
    }
  }

  lemma PairingKeeps(s: State, written: bool, ok: bool)
    requires Inv(s)
    ensures Inv(PairAgainStep(s, written)) && Inv(PairEndStep(s, ok))
  {
    if InPairing(s) {
      PairWaitsEnd(s);
      hide Return, ReturnPairing, Transmit, EndPairWaits, Agree;
      TransmitKeeps(EndPairWaits(s), s.pc.r, written);
      Returns(EndPairWaits(s), s.pc.r, ok);
    }
  }

  lemma PairWaitsKeep(s: State, secondHost: bool)
    requires Inv(s)
    ensures Inv(PairButtonStep(s, secondHost)) && Inv(PairFpStep(s))
  {
  }

  lemma CallsKeep(s: State, ok: bool)
    requires Inv(s)
    ensures Inv(ProceedStep(s, ok)) && Inv(CancelGateStep(s))
  {
    hide Arm;
  }

  lemma WorkerKeeps(s: State, a: Action)
    requires Inv(s) && !IsHandler(a) && !(a.Tick? || a.Screen? || a.Settings? || a.Arrive?)
    ensures Inv(WorkerStep(s, a))
  {
    hide DeliverStep, ResolveStep, SeeCancelStep, CloseStep, ExpireStep, DisconnectStep,
         PairAgainStep, PairButtonStep, PairFpStep, PairEndStep, ProceedStep, CancelGateStep, Transmit;
    match a
    case Fetch(written) =>
      if s.pc == Main && s.queue != [] {
        TransmitKeeps(s.(queue := s.queue[1..]), s.queue[0], written);
      }
    case Deliver(frame) => DeliverKeeps(s, frame);
    case Resolve => ResolveKeeps(s);
    case PairAgain(written) => PairingKeeps(s, written, true);
    case PairEnd(ok) => PairingKeeps(s, true, ok);
    case Proceed(ok) => CallsKeep(s, ok);
    case CancelGate => CallsKeep(s, true);
    case _ =>
      CancelKeeps(s);
      CloseStepKeeps(s);
      ExpireKeeps(s);
      PairWaitsKeep(s, true);
      PairWaitsKeep(s, false);
  }

  lemma {:induction false} RunKeeps(actions: seq<Action>)
    ensures Inv(Run(actions))
  {
    if actions != [] {
      var s, a := Run(actions[..|actions| - 1]), actions[|actions| - 1];
      RunKeeps(actions[..|actions| - 1]);
      hide Agree, HandlerStep, WorkerStep;
      if IsHandler(a) {
        HandlerKeeps(s, a);
      } else if !(a.Tick? || a.Screen? || a.Settings? || a.Arrive?) {
        WorkerKeeps(s, a);
      }
    }
  }

  /**
   * In every interleaving: each pending flag is up exactly while its sender is held, the gate and the authentication
   * are never both open, either is open only while the worker waits for it, and a worker that waits has either its
   * wait open or its result in hand. Back in the main loop nothing is open: the worker's methods may rely on it.
   */
  lemma WaitsAgree(actions: seq<Action>)
    ensures var s := Run(actions);
      && (s.link.gatePending <==> s.link.gate.armed) && (s.link.authPending <==> s.link.auth.armed)
      && !(s.link.gatePending && s.link.authPending)
      && (s.link.gatePending ==> s.pc.GateWait?) && (s.link.authPending ==> s.pc.AuthWait?)
      && (s.pc.GateWait? && !s.link.gatePending ==> s.link.gate.rx.Got?)
      && (s.pc.AuthWait? && !s.link.authPending ==> s.link.auth.rx.Got?)
      && (s.pc == Main ==> s.link.Plain())
  {
    RunKeeps(actions);
  }
}
