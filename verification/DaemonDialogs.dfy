/** When a dialog cancel can still stop the authentication it was meant for. */
module DaemonDialogs {
  import opened Wire
  import opened Link
  import opened Coordinator
  import opened Daemon
  import opened DaemonHistory
  import opened DaemonRuns
  import opened DaemonCancels
  import Approvals = DaemonApprovals
  import Waits = DaemonWaits

  /** The command still waits for its answer, or was asked for a finger. */
  predicate Promising(response: Oneshot<Bytes>) {
    response.rx.Waiting? || (response.rx.Got? && response.rx.value != [] && response.rx.value[0] == WAIT_FP)
  }

  /** `r`'s own authentication is queued, on the wire without an answer that decides it, or being waited for. */
  predicate InFlight(s: State, r: nat) {
    r in s.queue || s.pc == AuthWait(r) || (s.pc == CommandWait(r) && Promising(s.link.response))
  }

  // ---- Once it is not in flight, it never is again ----

  predicate Settled(q: Request) {
    q.kind.Authenticates() && (q.phase.Decided? || q.phase.Cleared? || q.phase.Bridged? || q.phase.Finished?)
  }

  /** Where the worker is has nothing to do with `r`, but for an answer in hand that grants it nothing to wait for. */
  predicate Elsewhere(pc: Pc, link: Link, r: nat) {
    && pc != AuthWait(r) && pc != ButtonWait(r) && pc != PairFpWait(r)
    && (pc == CommandWait(r) ==> link.response.rx.Got? && !link.response.armed && !Promising(link.response))
  }

  predicate Gone(s: State, r: nat) {
    r < |s.requests| && Settled(s.requests[r]) && r !in s.queue && Elsewhere(s.pc, s.link, r)
  }

  /** Handlers: whatever they do, a settled request stays settled and is not queued. */
  lemma ClaimsLeave(s: State, x: nat, q: Request, r: nat)
    requires x < |s.requests| && q == s.requests[x] && Gone(s, r)
    ensures Gone(CheckWindowStep(s, x, q), r) && Gone(ClaimStep(s, x, q), r)
  {
    hide Admits, Elsewhere;
  }

  lemma EnqueueLeaves(s: State, x: nat, q: Request, r: nat)
    requires x < |s.requests| && q == s.requests[x] && Gone(s, r)
    ensures Gone(EnqueueStep(s, x, q), r)
  {
    hide Elsewhere;
  }

  lemma DecideLeaves(s: State, x: nat, q: Request, ok: bool, r: nat)
    requires x < |s.requests| && q == s.requests[x] && q.phase == Racing && Gone(s, r)
    ensures Gone(Decide(s, x, q, ok), r)
  {
    hide Elsewhere;
  }

  lemma DecisionsLeave(s: State, x: nat, q: Request, r: nat)
    requires x < |s.requests| && q == s.requests[x] && Gone(s, r)
    ensures Gone(TakeReplyStep(s, x, q), r) && Gone(TakePendingStep(s, x, q), r)
  {
    if q.phase == Racing {
      DecideLeaves(s, x, q, true, r);
      DecideLeaves(s, x, q, false, r);
      hide Elsewhere, Decide;
    }
  }

  lemma ClearLeaves(s: State, x: nat, q: Request, r: nat)
    requires x < |s.requests| && q == s.requests[x] && Gone(s, r)
    ensures Gone(ClearStep(s, x, q), r)
  {
    hide Elsewhere;
  }

  lemma EndingsLeave(s: State, x: nat, q: Request, r: nat)
    requires x < |s.requests| && q == s.requests[x] && Gone(s, r)
    ensures Gone(BridgeStep(s, x, q), r) && Gone(AnswerStep(s, x, q), r)
  {
    hide Arm, Elsewhere;
  }

  lemma HandlersLeave(s: State, a: Action, r: nat)
    requires IsHandler(a) && !a.Cancel? && Gone(s, r)
    ensures Gone(HandlerStep(s, a), r)
  {
    hide Gone, CheckWindowStep, ClaimStep, EnqueueStep, TakeReplyStep, TakePendingStep, ClearStep, BridgeStep, AnswerStep;
    if a.r < |s.requests| {
      ClaimsLeave(s, a.r, s.requests[a.r], r);
      EnqueueLeaves(s, a.r, s.requests[a.r], r);
      DecisionsLeave(s, a.r, s.requests[a.r], r);
      ClearLeaves(s, a.r, s.requests[a.r], r);
      EndingsLeave(s, a.r, s.requests[a.r], r);
    }
  }

  /** The worker changes no request but its reply. */
  lemma ReturnLeaves(s: State, x: nat, ok: bool, r: nat)
    requires r < |s.requests| && Settled(s.requests[r]) && r !in s.queue
    ensures Gone(Return(s, x, ok), r)
  {
  }

  lemma ReturnsLeave(s: State, x: nat, ok: bool, r: nat)
    requires r < |s.requests| && Settled(s.requests[r]) && r !in s.queue
    ensures Gone(ReturnPairing(s, x, ok), r) && Gone(CloseAuth(s, x, ok), r) && Gone(CloseGate(s, x, ok), r)
  {
    hide Return, Settled;
    ReturnLeaves(s.(coord := s.coord.(progress := if ok then Done else Failed)), x, ok, r);
    ReturnLeaves(s.(link := s.link.(authPending := false, auth := s.link.auth.Drop())), x, ok, r);
    ReturnLeaves(s.(link := s.link.(gatePending := false, gate := s.link.gate.Drop()), coord := s.coord.(gateActive := false)), x, ok, r);
  }

  lemma TransmitLeaves(s: State, x: nat, written: bool, r: nat)
    requires r < |s.requests| && Settled(s.requests[r]) && r !in s.queue && x != r
    ensures Gone(Transmit(s, x, written), r)
  {
    var armed := s.(link := s.link.(response := Oneshot(true, Waiting)));
    ReturnLeaves(armed, x, false, r);
    ReturnsLeave(armed, x, false, r);
    hide Return, ReturnPairing;
  }

  lemma AnsweredLeaves(s: State, x: nat, r: nat)
    requires Gone(s, r) && s.pc == CommandWait(x) && s.link.response.rx.Got?
    ensures Gone(Answered(s, x, s.link.response.rx.value), r)
  {
    ReturnLeaves(s, x, true, r);
    ReturnLeaves(s, x, false, r);
    hide Return;
  }

  lemma ResolveLeaves(s: State, r: nat)
    requires Gone(s, r)
    ensures Gone(ResolveStep(s), r)
  {
    hide Answered, CloseAuth, CloseGate, Elsewhere, Settled;
    match s.pc
    case CommandWait(x) =>
      if s.link.response.rx.Got? {
        AnsweredLeaves(s, x, r);
      }
    case AuthWait(x) =>
      if s.link.auth.rx.Got? {
        ReturnsLeave(s, x, s.link.auth.rx.value, r);
      }
    case GateWait(x) =>
      if s.link.gate.rx.Got? {
        ReturnsLeave(s, x, s.link.gate.rx.value.passed, r);
      }
    case _ =>
  }

  lemma CloseLeaves(s: State, r: nat)
    requires Gone(s, r)
    ensures Gone(CloseStep(s), r)
  {
    if s.pc.AuthClosing? || s.pc.GateClosing? {
      ReturnsLeave(s, s.pc.r, false, r);
      hide CloseAuth, CloseGate, Gone;
    }
  }

  lemma ExpireLeaves(s: State, r: nat)
    requires Gone(s, r)
    ensures Gone(ExpireStep(s), r)
  {
    if InPairing(s) {
      var ended := EndPairWaits(s).(link := EndPairWaits(s).link.(response := s.link.response.Drop()));
      ReturnsLeave(ended, s.pc.r, false, r);
      hide ReturnPairing, Gone, EndPairWaits, InPairing;
    } else if s.pc.CommandWait? {
      var dropped := s.(link := s.link.(response := s.link.response.Drop()));
      ReturnLeaves(dropped, s.pc.r, false, r);
      hide Return, Gone, InPairing;
    } else if s.pc.AuthWait? || s.pc.GateWait? {
      ReturnsLeave(s, s.pc.r, false, r);
      hide CloseAuth, CloseGate, Gone, InPairing;
    }
  }

  lemma PairingLeaves(s: State, written: bool, ok: bool, r: nat)
    requires Gone(s, r)
    ensures Gone(PairAgainStep(s, written), r) && Gone(PairEndStep(s, ok), r)
  {
    if InPairing(s) {
      assert s.pc.r != r;
      TransmitLeaves(EndPairWaits(s), s.pc.r, written, r);
      ReturnsLeave(EndPairWaits(s), s.pc.r, ok, r);
      hide Transmit, ReturnPairing;
    }
  }

  lemma PairWaitsLeave(s: State, secondHost: bool, r: nat)
    requires Gone(s, r)
    ensures Gone(PairButtonStep(s, secondHost), r) && Gone(PairFpStep(s), r)
  {
  }

  lemma FetchLeaves(s: State, written: bool, r: nat)
    requires Gone(s, r)
    ensures Gone(FetchStep(s, written), r)
  {
    if s.pc == Main && s.call == Free && s.queue != [] {
      TransmitLeaves(s.(queue := s.queue[1..]), s.queue[0], written, r);
      hide Transmit;
    }
  }

  lemma DeliverLeaves(s: State, f: Frame, r: nat)
    requires Gone(s, r)
    ensures Gone(DeliverStep(s, f), r)
  {
    if s.pc == CommandWait(r) {
      UnarmedStays(s.link, f);
    }
    hide Route, CallFor, ProgressAfter, Quiet, Settled;
  }

  /** An answer in hand is not overwritten. */
  lemma UnarmedStays(l: Link, f: Frame)
    requires !l.response.armed
    ensures Route(l, f).link.response == l.response
  {
    hide LittleEndian;
  }

  lemma ApprovingLeaves(s: State, ok: bool, r: nat)
    requires Gone(s, r) && s.call == Approving
    ensures Gone(ProceedStep(s, ok), r)
  {
    hide Elsewhere;
  }

  lemma ProceedLeaves(s: State, ok: bool, r: nat)
    requires Gone(s, r)
    ensures Gone(ProceedStep(s, ok), r)
  {
    if s.call == Approving {
      ApprovingLeaves(s, ok, r);
    } else {
      hide Arm, MayLock, Elsewhere, Settled;
    }
  }

  lemma SeeCancelLeaves(s: State, r: nat)
    requires Gone(s, r)
    ensures Gone(SeeCancelStep(s), r) && Gone(DisconnectStep(s), r)
  {
  }

  lemma WorkerLeaves(s: State, a: Action, r: nat)
    requires !IsHandler(a) && !(a.Tick? || a.Screen? || a.Settings? || a.Arrive?) && !a.CancelGate? && Gone(s, r)
    ensures Gone(WorkerStep(s, a), r)
  {
    hide Gone, FetchStep, DeliverStep, ResolveStep, SeeCancelStep, CloseStep, ExpireStep, DisconnectStep,
         PairAgainStep, PairButtonStep, PairFpStep, PairEndStep, ProceedStep;
    match a
    case Fetch(written) => FetchLeaves(s, written, r);
    case Deliver(frame) => DeliverLeaves(s, frame, r);
    case Resolve => ResolveLeaves(s, r);
    case SeeCancel => SeeCancelLeaves(s, r);
    case Disconnect => SeeCancelLeaves(s, r);
    case PairAgain(written) => PairingLeaves(s, written, true, r);
    case PairEnd(ok) => PairingLeaves(s, true, ok, r);
    case PairButton(secondHost) => PairWaitsLeave(s, secondHost, r);
    case PairFp => PairWaitsLeave(s, true, r);
    case Proceed(ok) => ProceedLeaves(s, ok, r);
    case Close => CloseLeaves(s, r);
    case Expire => ExpireLeaves(s, r);
  }

  lemma StepLeaves(s: State, a: Action, r: nat)
    requires !a.Cancel? && !a.CancelGate? && Gone(s, r)
    ensures Gone(Next(s, a), r)
  {
    hide HandlerStep, WorkerStep, Settled, Elsewhere;
    if IsHandler(a) {
      HandlersLeave(s, a, r);
    } else if !(a.Tick? || a.Screen? || a.Settings? || a.Arrive?) {
      WorkerLeaves(s, a, r);
    }
  }

  /** From `s` to `t` the log only grew, and `r` was not killed. */
  predicate Passes(s: State, t: State, r: nat) {
    |s.log| <= |t.log| && t.log[..|s.log|] == s.log && forall k :: |s.log| <= k < |t.log| ==> t.log[k] != AuthKilled(r)
  }

  lemma StepPasses(s: State, a: Action, r: nat)
    requires !a.Cancel? && !a.CancelGate? && s.pc != AuthWait(r)
    ensures Passes(s, Next(s, a), r)
  {
    if a.SeeCancel? {
    } else {
      StepSpares(s, a, TheAuth);
      hide Next;
      SparesPasses(s, Next(s, a), r);
    }
  }

  lemma SparesPasses(s: State, t: State, r: nat)
    requires Spares(s, t, TheAuth)
    ensures Passes(s, t, r)
  {
    forall k | |s.log| <= k < |t.log| ensures t.log[k] != AuthKilled(r) {
      assert !IsKillOf(TheAuth, t.log[k]);
    }
  }

  lemma PassesOver(s: State, t: State, u: State, r: nat)
    requires Passes(s, t, r) && Passes(t, u, r)
    ensures Passes(s, u, r)
  {
    assert u.log[..|s.log|] == t.log[..|s.log|];
    forall k | |s.log| <= k < |u.log| ensures u.log[k] != AuthKilled(r) {
      if k < |t.log| {
        assert u.log[..|t.log|][k] == u.log[k];
      }
    }
  }

  lemma {:induction false} ContinueLeaves(s: State, more: seq<Action>, r: nat)
    requires Silent(more) && Gone(s, r)
    ensures Gone(Continue(s, more), r) && Passes(s, Continue(s, more), r)
  {
    if more != [] {
      var n := |more| - 1;
      var before := Continue(s, more[..n]);
      ContinueLeaves(s, more[..n], r);
      StepPasses(before, more[n], r);
      hide Next;
      StepLeaves(before, more[n], r);
      PassesOver(s, before, Continue(s, more), r);
    }
  }

  // ---- As long as it is in flight, it can be reached ----

  /** `t` is where a kill of `r` has just been logged. */
  predicate JustKilled(s: State, t: State, r: nat) {
    |s.log| < |t.log| && t.log[|t.log| - 1] == AuthKilled(r)
  }

  lemma WaitingDies(from: State, s: State, r: nat) returns (t: State)
    requires Leads(from, s) && s.pc == AuthWait(r) && s.coord.authPermit
    ensures Leads(from, t) && JustKilled(s, t, r)
  {
    var calm := Calms(from, s);
    hide Leads;
    t := Next(calm, SeeCancel);
    LeadsNext(from, calm, SeeCancel, t);
    assert t.log == calm.log + [AuthKilled(r)];
  }

  /** A command still unanswered can be asked for a finger. */
  lemma UnansweredIsPlain(from: State, s: State)
    requires Reachable(from) && Leads(from, s) && s.pc.CommandWait? && s.link.response.rx.Waiting?
    ensures s.link.Plain() && s.link.response == Oneshot(true, Waiting)
  {
    ReachLeads(from, s);
    var actions :| Run(actions) == s;
    Waits.RunKeeps(actions);
    Approvals.RunKeeps(actions);
    assert Approvals.WaitOk(s);
    hide Run, FirstAnswer, Underway, Since;
  }

  lemma CommandDies(from: State, s: State, r: nat) returns (t: State)
    requires Reachable(from) && Leads(from, s) && s.pc == CommandWait(r) && Promising(s.link.response) && s.coord.authPermit
    requires r < |s.requests| && s.requests[r].kind.Authenticates()
    ensures Leads(from, t) && JustKilled(s, t, r)
  {
    var calm := Calms(from, s);
    var asked := calm;
    if calm.link.response.rx.Waiting? {
      UnansweredIsPlain(from, calm);
      Asks(from, calm);
      asked := Asked(calm);
    }
    hide Leads, Reachable;
    OpensAuth(from, asked);
    t := WaitingDies(from, AtAuth(asked), r);
  }

  lemma {:induction false} QueuedDies(from: State, s: State, r: nat) returns (t: State)
    requires Reachable(from) && Leads(from, s) && s.pc == Main && s.call == Free && r in s.queue && s.coord.authPermit
    requires r < |s.requests| && s.requests[r].kind.Authenticates()
    ensures Leads(from, t) && JustKilled(s, t, r)
    decreases |s.queue|
  {
    hide Leads, Reachable;
    if s.queue[0] == r {
      var sent := Next(s, Fetch(true));
      LeadsNext(from, s, Fetch(true), sent);
      t := CommandDies(from, sent, r);
    } else {
      var next := Next(s, Fetch(false));
      LeadsNext(from, s, Fetch(false), next);
      FailsToSend(s);
      hide FetchStep;
      t := QueuedDies(from, next, r);
    }
  }

  lemma InFlightDies(from: State, s: State, r: nat) returns (t: State)
    requires Reachable(from) && Leads(from, s) && InFlight(s, r) && s.coord.authPermit
    requires r < |s.requests| && s.requests[r].kind.Authenticates()
    ensures Leads(from, t) && JustKilled(s, t, r)
  {
    hide Leads, Reachable;
    if s.pc == AuthWait(r) {
      t := WaitingDies(from, s, r);
    } else if s.pc == CommandWait(r) && Promising(s.link.response) {
      t := CommandDies(from, s, r);
    } else {
      var calm := Calms(from, s);
      var home := GoesHome(from, calm);
      t := QueuedDies(from, home, r);
    }
  }

  /** What a dialog cancel leaves as it was. */
  lemma CancelLeaves(s: State, r: nat)
    requires Races(s, r) && s.requests[r].kind.Authenticates()
    ensures var t := Next(s, Cancel(r));
      && t.queue == s.queue && t.pc == s.pc && t.link == s.link && t.coord.authPermit && t.log == s.log + [DialogNotified(r)]
      && |t.requests| == |s.requests| && t.requests[r].kind == s.requests[r].kind && t.requests[r].phase == Decided(false)
  {
  }

  lemma NotInFlightIsGone(actions: seq<Action>, r: nat)
    requires Races(Run(actions), r) && Run(actions).requests[r].kind.Authenticates() && !InFlight(Run(actions), r)
    ensures Gone(Next(Run(actions), Cancel(r)), r)
  {
    var s := Run(actions);
    Approvals.RunKeeps(actions);
    CancelLeaves(s, r);
    assert Approvals.WaitOk(s) && Approvals.KindOk(s);
    hide Run, Next, FirstAnswer, Underway, Since;
  }

  /**
   * In every reachable state without a stored permit, the dialog cancel of a racing request can still stop the request's own
   * authentication if and only if that is queued, on the wire and not yet decided, or being waited for. In all other states
   * it can reach nothing but other requests.
   */
  lemma DialogCancelReachesItself(actions: seq<Action>, r: nat)
    requires !Run(actions).coord.authPermit && Races(Run(actions), r) && Run(actions).requests[r].kind.Authenticates()
    ensures CanKill(Run(actions), Cancel(r), TheAuth, r) <==> InFlight(Run(actions), r)
  {
    var s := Run(actions);
    var after := Next(s, Cancel(r));
    CancelLeaves(s, r);
    if InFlight(s, r) {
      assert Reachable(s);
      ReachNext(s, Cancel(r), after);
      LeadsSelf(after);
      hide Run, Next, Leads, Reachable;
      var t := InFlightDies(after, after, r);
      assert t.log[|t.log| - 1] == Kill(TheAuth, r);
      assert KilledSince(s, t, TheAuth, r);
    } else {
      NotInFlightIsGone(actions, r);
      hide Run, Next, Gone, KilledSince;
      forall t | Leads(after, t) ensures !KilledSince(s, t, TheAuth, r) {
        NeverKilled(s, after, t, r);
      }
    }
  }

  lemma NeverKilled(s: State, after: State, t: State, r: nat)
    requires after.log == s.log + [DialogNotified(r)] && Gone(after, r) && Leads(after, t)
    ensures !KilledSince(s, t, TheAuth, r)
  {
    var more :| Silent(more) && Continue(after, more) == t;
    ContinueLeaves(after, more, r);
    hide Gone, Continue;
    forall k | |s.log| <= k < |t.log| ensures t.log[k] != AuthKilled(r) {
      if k == |s.log| {
        assert t.log[..|after.log|][k] == after.log[k];
      }
    }
  }
}
