/** Runs of the daemon: what can be reached, and what a reached state can still lead to. */
module DaemonRuns {
  import opened Wire
  import opened Link
  import opened Coordinator
  import opened Daemon

  ghost predicate Reachable(s: State) {
    exists actions :: Run(actions) == s
  }

  lemma ReachNext(s: State, a: Action, t: State)
    requires Reachable(s) && Next(s, a) == t
    ensures Reachable(t)
  {
    var actions :| Run(actions) == s;
    hide Next;
    assert (actions + [a])[..|actions|] == actions;
    assert Run(actions + [a]) == t;
  }

  lemma StartReachable()
    ensures Reachable(START)
  {
    assert Run([]) == START;
  }

  // ---- Runs in which nobody cancels ----

  predicate Silent(more: seq<Action>) {
    forall i :: 0 <= i < |more| ==> !more[i].Cancel? && !more[i].CancelGate?
  }

  function Continue(s: State, more: seq<Action>): State {
    if more == [] then s else Next(Continue(s, more[..|more| - 1]), more[|more| - 1])
  }

  ghost predicate Leads(s: State, t: State) {
    exists more :: Silent(more) && Continue(s, more) == t
  }

  lemma LeadsSelf(s: State)
    ensures Leads(s, s)
  {
    assert Silent([]) && Continue(s, []) == s;
  }

  lemma LeadsNext(from: State, s: State, a: Action, t: State)
    requires Leads(from, s) && Next(s, a) == t && !a.Cancel? && !a.CancelGate?
    ensures Leads(from, t)
  {
    var more :| Silent(more) && Continue(from, more) == s;
    hide Next;
    assert (more + [a])[..|more|] == more;
    assert Silent(more + [a]) && Continue(from, more + [a]) == t;
  }

  lemma {:induction false} ReachContinue(s: State, more: seq<Action>)
    requires Reachable(s)
    ensures Reachable(Continue(s, more))
  {
    hide Next, Reachable;
    if more != [] {
      var n := |more| - 1;
      ReachContinue(s, more[..n]);
      ReachNext(Continue(s, more[..n]), more[n], Continue(s, more));
    }
  }

  lemma ReachLeads(s: State, t: State)
    requires Reachable(s) && Leads(s, t)
    ensures Reachable(t)
  {
    var more :| Silent(more) && Continue(s, more) == t;
    ReachContinue(s, more);
  }

  // ---- A request is sent and asked for a finger ----

  const ASKED: Frame := Frame([WAIT_FP], false)
  const PASSED: Frame := Frame([OK], false)

  function SentOut(s: State): State
    requires s.queue != []
  {
    s.(queue := [], link := s.link.(response := Oneshot(true, Waiting)), pc := CommandWait(s.queue[0]), since := |s.log|,
       log := s.log + [Sent(s.queue[0])])
  }

  lemma Sends(from: State, s: State)
    requires s.pc == Main && s.call == Free && |s.queue| == 1 && Leads(from, s)
    ensures Leads(from, SentOut(s))
  {
    assert s.queue[1..] == [];
    LeadsNext(from, s, Fetch(true), SentOut(s));
  }

  function Asked(s: State): State {
    s.(link := s.link.(response := Oneshot(false, Got([WAIT_FP]))), log := s.log + [Received(ASKED, true)])
  }

  lemma Asks(from: State, s: State)
    requires s.pc.CommandWait? && s.call == Free && s.link.Plain() && s.link.response == Oneshot(true, Waiting) && Leads(from, s)
    ensures Leads(from, Asked(s))
  {
    assert Route(s.link, ASKED) == Routed(s.link.(response := Oneshot(false, Got([WAIT_FP]))), Nothing);
    hide Route, Leads;
    assert Next(s, Deliver(ASKED)) == Asked(s);
    LeadsNext(from, s, Deliver(ASKED), Asked(s));
  }

  predicate Answerable(s: State) {
    && s.pc.CommandWait? && s.call == Free && s.pc.r < |s.requests| && s.link.response.rx.Got?
    && s.link.response.rx.value != [] && s.link.response.rx.value[0] == WAIT_FP
  }

  function AtGate(s: State): State
    requires Answerable(s)
  {
    s.(link := s.link.(gatePending := true, gate := Oneshot(true, Waiting), failures := 0), pc := GateWait(s.pc.r),
       coord := s.coord.(gateActive := true), log := s.log + [GateOpened(s.pc.r)])
  }

  lemma OpensGate(from: State, s: State)
    requires Answerable(s) && s.requests[s.pc.r].kind == Gated && Leads(from, s)
    ensures Leads(from, AtGate(s))
  {
    hide Leads;
    LeadsNext(from, s, Resolve, AtGate(s));
  }

  function AtAuth(s: State): State
    requires Answerable(s)
  {
    s.(link := s.link.(authPending := true, auth := Oneshot(true, Waiting), failures := 0), pc := AuthWait(s.pc.r),
       since := |s.log|, log := s.log + [AuthOpened(s.pc.r)])
  }

  lemma OpensAuth(from: State, s: State)
    requires Answerable(s) && s.requests[s.pc.r].kind.Authenticates() && Leads(from, s)
    ensures Leads(from, AtAuth(s))
  {
    hide Leads;
    LeadsNext(from, s, Resolve, AtAuth(s));
  }

  // ---- A new request, up to its gate or authentication ----

  predicate Ready(s: State) {
    s.pc == Main && s.call == Free && s.queue == [] && s.link.Plain()
  }

  /** One more gated request, queued. */
  function GatedQueued(s: State): State {
    s.(requests := s.requests + [Request(Gated, Racing, true, Dropped, Waiting)], queue := [|s.requests|])
  }

  lemma QueuesGated(from: State, s: State)
    requires Ready(s) && Leads(from, s)
    ensures Leads(from, GatedQueued(s))
  {
    hide Leads;
    var r := |s.requests|;
    var s1 := s.(requests := s.requests + [Request(Gated, Racing, false, Dropped, Dropped)]);
    LeadsNext(from, s, Arrive(Gated), s1);
    assert s1.requests[r := Request(Gated, Racing, true, Dropped, Waiting)] == GatedQueued(s).requests;
    assert s1.queue + [r] == [r];
    LeadsNext(from, s1, Enqueue(r), GatedQueued(s));
  }

  /** One more agent request, in the slot and queued. */
  function AgentQueued(s: State): State {
    s.(requests := s.requests + [Request(Agent, Racing, true, Waiting, Waiting)], queue := [|s.requests|],
       coord := s.coord.(pendingPam := Some(|s.requests|)))
  }

  lemma QueuesAgent(from: State, s: State)
    requires Ready(s) && s.coord.pendingPam.None? && Leads(from, s)
    ensures Leads(from, AgentQueued(s))
  {
    hide Leads;
    var r := |s.requests|;
    var s1 := s.(requests := s.requests + [Request(Agent, Fresh, false, Dropped, Dropped)]);
    LeadsNext(from, s, Arrive(Agent), s1);
    var s2 := s.(requests := s.requests + [Request(Agent, Racing, false, Waiting, Dropped)], coord := s.coord.(pendingPam := Some(r)));
    assert s1.requests[r := Request(Agent, Racing, false, Waiting, Dropped)] == s2.requests;
    LeadsNext(from, s1, Claim(r), s2);
    assert s2.requests[r := Request(Agent, Racing, true, Waiting, Waiting)] == AgentQueued(s).requests;
    assert s2.queue + [r] == [r];
    LeadsNext(from, s2, Enqueue(r), AgentQueued(s));
  }

  /** A new gated request has its gate open. */
  lemma NewGate(from: State, s: State) returns (t: State)
    requires Ready(s) && Leads(from, s)
    ensures Leads(from, t) && t == AtGate(Asked(SentOut(GatedQueued(s))))
  {
    QueuesGated(from, s);
    var queued := GatedQueued(s);
    Sends(from, queued);
    Asks(from, SentOut(queued));
    hide Leads;
    OpensGate(from, Asked(SentOut(queued)));
    t := AtGate(Asked(SentOut(queued)));
  }

  /** A new agent request has its authentication open. */
  lemma NewAuth(from: State, s: State) returns (t: State)
    requires Ready(s) && s.coord.pendingPam.None? && Leads(from, s)
    ensures Leads(from, t) && t == AtAuth(Asked(SentOut(AgentQueued(s))))
  {
    QueuesAgent(from, s);
    var queued := AgentQueued(s);
    Sends(from, queued);
    Asks(from, SentOut(queued));
    hide Leads;
    OpensAuth(from, Asked(SentOut(queued)));
    t := AtAuth(Asked(SentOut(queued)));
  }

  // ---- From anywhere back to an idle worker ----

  /**
   * Permits stay where they are, an empty slot stays empty, no request is gone or has moved on by itself, and the log only
   * grows.
   */
  predicate Kept(s: State, t: State) {
    && t.coord.gatePermit == s.coord.gatePermit && t.coord.authPermit == s.coord.authPermit
    && (s.coord.pendingPam.None? ==> t.coord.pendingPam.None?) && |s.log| <= |t.log|
    && |t.requests| == |s.requests| && forall r :: 0 <= r < |s.requests| ==> Stays(s.requests[r], t.requests[r])
  }

  /** The same request, in the same phase, with its command queued or not as before. */
  predicate Stays(q: Request, p: Request) {
    p.kind == q.kind && p.phase == q.phase && p.sent == q.sent
  }

  /** No request is gone and none has changed its kind. */
  predicate SameKinds(s: State, t: State) {
    |s.requests| <= |t.requests| && forall r :: 0 <= r < |s.requests| ==> t.requests[r].kind == s.requests[r].kind
  }

  /** How many steps a coordinator call has left at most. */
  function Left(call: Call): nat {
    match call
    case Free => 0
    case Approving => 3
    case Stamping => 2
    case Following => 1
    case CheckingUnlock => 2
    case Unlocking => 1
    case CheckingLock => 2
    case Clearing => 1
  }

  lemma ApprovesOn(s: State)
    requires s.call == Approving
    ensures var t := ProceedStep(s, false);
      Left(t.call) < Left(s.call) && t.pc == s.pc && t.link == s.link && t.queue == s.queue && Kept(s, t)
  {
  }

  lemma ProceedsOn(s: State)
    requires s.call != Free
    ensures var t := ProceedStep(s, false);
      Left(t.call) < Left(s.call) && t.pc == s.pc && t.link == s.link && t.queue == s.queue && Kept(s, t)
  {
    if s.call == Approving {
      ApprovesOn(s);
    } else {
      hide Arm, MayLock;
    }
  }

  /** The coordinator call in progress, if any, returns. */
  lemma {:induction false} Calms(from: State, s: State) returns (t: State)
    requires Leads(from, s)
    ensures Leads(from, t) && t.call == Free && t.pc == s.pc && t.link == s.link && t.queue == s.queue && Kept(s, t)
    decreases Left(s.call)
  {
    t := s;
    if s.call != Free {
      var next := Next(s, Proceed(false));
      LeadsNext(from, s, Proceed(false), next);
      ProceedsOn(s);
      hide Leads, ProceedStep;
      t := Calms(from, next);
    }
  }

  lemma ReturnsHome(s: State, r: nat, ok: bool)
    ensures var t := Return(s, r, ok); t.pc == Main && t.call == s.call && t.queue == s.queue && Kept(s, t)
  {
  }

  lemma PairingReturnsHome(s: State, r: nat, ok: bool)
    ensures var t := ReturnPairing(s, r, ok); t.pc == Main && t.call == s.call && t.queue == s.queue && Kept(s, t)
  {
    hide Return;
    ReturnsHome(s.(coord := s.coord.(progress := if ok then Done else Failed)), r, ok);
  }

  lemma EndsHome(s: State, r: nat)
    ensures var t := CloseAuth(s, r, false); t.pc == Main && t.call == s.call && t.queue == s.queue && Kept(s, t)
    ensures var t := CloseGate(s, r, false); t.pc == Main && t.call == s.call && t.queue == s.queue && Kept(s, t)
  {
    hide Return;
    ReturnsHome(s.(link := s.link.(authPending := false, auth := s.link.auth.Drop())), r, false);
    ReturnsHome(s.(link := s.link.(gatePending := false, gate := s.link.gate.Drop()), coord := s.coord.(gateActive := false)), r, false);
  }

  lemma KeptFrom(s: State, from: State, t: State)
    requires Kept(from, t) && from.coord == s.coord && from.requests == s.requests && from.log == s.log
    ensures Kept(s, t)
  {
  }

  lemma CloseComesHome(s: State)
    requires s.call == Free && (s.pc.AuthClosing? || s.pc.GateClosing?)
    ensures var t := CloseStep(s); t.pc == Main && t.call == Free && t.queue == s.queue && Kept(s, t)
  {
    EndsHome(s, s.pc.r);
    hide CloseAuth, CloseGate, Kept;
  }

  lemma ExpireComesHome(s: State)
    requires s.call == Free && s.pc != Main && !s.pc.AuthClosing? && !s.pc.GateClosing?
    ensures var t := ExpireStep(s); t.pc == Main && t.call == Free && t.queue == s.queue && Kept(s, t)
  {
    if InPairing(s) {
      var ended := EndPairWaits(s).(link := EndPairWaits(s).link.(response := s.link.response.Drop()));
      PairingReturnsHome(ended, s.pc.r, false);
      KeptFrom(s, ended, ReturnPairing(ended, s.pc.r, false));
      hide ReturnPairing, Kept, EndPairWaits, InPairing;
    } else if s.pc.CommandWait? {
      var dropped := s.(link := s.link.(response := s.link.response.Drop()));
      ReturnsHome(dropped, s.pc.r, false);
      KeptFrom(s, dropped, Return(dropped, s.pc.r, false));
      hide Return, Kept, InPairing;
    } else {
      EndsHome(s, s.pc.r);
      hide CloseAuth, CloseGate, Kept;
    }
  }

  /** The wait in progress runs into its deadline. */
  lemma GoesHome(from: State, s: State) returns (t: State)
    requires Leads(from, s) && s.call == Free
    ensures Leads(from, t) && t.pc == Main && t.call == Free && t.queue == s.queue && Kept(s, t)
  {
    t := s;
    if s.pc != Main {
      var a := if s.pc.AuthClosing? || s.pc.GateClosing? then Close else Expire;
      if a == Close {
        CloseComesHome(s);
      } else {
        ExpireComesHome(s);
      }
      hide Leads, CloseStep, ExpireStep;
      t := Next(s, a);
      LeadsNext(from, s, a, t);
    }
  }

  lemma FailsToSend(s: State)
    requires s.pc == Main && s.call == Free && s.queue != []
    ensures var t := FetchStep(s, false); t.pc == Main && t.call == Free && t.queue == s.queue[1..] && Kept(s, t)
  {
    var taken := s.(queue := s.queue[1..], link := s.link.(response := Oneshot(true, Waiting)));
    ReturnsHome(taken, s.queue[0], false);
    PairingReturnsHome(taken, s.queue[0], false);
    hide Return, ReturnPairing, Kept;
    KeptFrom(s, taken, Return(taken, s.queue[0], false));
    KeptFrom(s, taken, ReturnPairing(taken, s.queue[0], false));
  }

  /** Every queued command fails to go out. */
  lemma {:induction false} Drains(from: State, s: State) returns (t: State)
    requires Leads(from, s) && s.pc == Main && s.call == Free
    ensures Leads(from, t) && t.pc == Main && t.call == Free && t.queue == [] && Kept(s, t)
    decreases |s.queue|
  {
    t := s;
    if s.queue != [] {
      var next := Next(s, Fetch(false));
      LeadsNext(from, s, Fetch(false), next);
      FailsToSend(s);
      hide Leads, FetchStep;
      t := Drains(from, next);
    }
  }

  /** From wherever it is, the worker can get back to its main loop with nothing left to do. */
  lemma Idles(from: State, s: State) returns (t: State)
    requires Leads(from, s)
    ensures Leads(from, t) && t.pc == Main && t.call == Free && t.queue == [] && Kept(s, t)
  {
    hide Leads;
    var calm := Calms(from, s);
    var home := GoesHome(from, calm);
    t := Drains(from, home);
  }

  // ---- A run in which an old cancel kills a new gate ----

  /** The finger passes. */
  function Passed(s: State): State {
    s.(link := s.link.(gatePending := false, gate := Oneshot(false, Got(GateResult(true, None)))),
       log := s.log + [Received(PASSED, false)])
  }

  lemma Passes(s: State)
    requires s.pc.GateWait? && s.call == Free && Reachable(s)
    requires s.link.gatePending && s.link.gate == Oneshot(true, Waiting)
    ensures Reachable(Passed(s))
  {
    assert Route(s.link, PASSED) == Routed(Passed(s).link, Nothing);
    hide Route, Reachable;
    assert Next(s, Deliver(PASSED)) == Passed(s);
    ReachNext(s, Deliver(PASSED), Passed(s));
  }

  /** A cancel arrives before the worker is back in its main loop. */
  function CancelledLate(s: State): State
    requires s.pc.GateWait? && s.pc.r < |s.requests|
  {
    var r := s.pc.r;
    s.(pc := Main, coord := s.coord.(gateActive := false, gatePermit := true),
       requests := s.requests[r := s.requests[r].(reply := Got(true))],
       log := s.log + [Notified(true)] + [Replied(r, true)] + [GateClosed(r)])
  }

  lemma CancelsLate(s: State)
    requires s.pc.GateWait? && s.pc.r < |s.requests| && s.call == Free && s.coord.gateActive && Reachable(s)
    requires !s.link.gatePending && s.link.gate == Oneshot(false, Got(GateResult(true, None)))
    ensures Reachable(CancelledLate(s))
  {
    hide Reachable;
    var s1 := s.(coord := s.coord.(gatePermit := true), log := s.log + [Notified(true)]);
    assert s1 == Next(s, CancelGate);
    ReachNext(s, CancelGate, s1);
    assert CancelledLate(s) == Next(s1, Resolve);
    ReachNext(s1, Resolve, CancelledLate(s));
  }

  const GATE_LOG: seq<Event> :=
    [Sent(0), Received(ASKED, true), GateOpened(0), Received(PASSED, false), Notified(true), Replied(0, true), GateClosed(0)]

  lemma FirstGatePasses() returns (s: State)
    ensures Reachable(s) && Ready(s) && |s.requests| == 1 && s.coord.gatePermit && s.log == GATE_LOG
  {
    StartReachable();
    LeadsSelf(START);
    var waiting := NewGate(START, START);
    ReachLeads(START, waiting);
    hide Reachable, Leads;
    Passes(waiting);
    CancelsLate(Passed(waiting));
    s := CancelledLate(Passed(waiting));
  }

  /**
   * A run in which the second gate is cancelled although nothing was cancelled since it opened: the notification at
   * index 4 was sent while the first gate was in force, but after the frame that had already passed it.
   */
  lemma LateCancelKillsNextGate()
    ensures exists s :: Reachable(s) && s.log == GATE_LOG + [Sent(1), Received(ASKED, true), GateOpened(1), GateKilled(1)]
  {
    var first := FirstGatePasses();
    LeadsSelf(first);
    var waiting := NewGate(first, first);
    ReachLeads(first, waiting);
    hide Reachable, Leads;
    var killed := Next(waiting, SeeCancel);
    ReachNext(waiting, SeeCancel, killed);
    assert killed.log == GATE_LOG + [Sent(1), Received(ASKED, true), GateOpened(1), GateKilled(1)];
  }

  // ---- A run in which one request's cancel denies another ----

  /** An agent request claims the slot, is cancelled before its command is queued, and clears the slot. */
  lemma DialogDismissed() returns (s: State)
    ensures Reachable(s) && Ready(s) && |s.requests| == 1 && s.requests[0].phase == Cleared(false)
    ensures s.coord.authPermit && s.coord.pendingPam.None? && s.log == [DialogNotified(0), SlotDenied(0, 0)]
  {
    StartReachable();
    hide Reachable;
    var s1 := START.(requests := [Request(Agent, Fresh, false, Dropped, Dropped)]);
    ReachNext(START, Arrive(Agent), s1);
    var s2 := START.(requests := [Request(Agent, Racing, false, Waiting, Dropped)], coord := START.coord.(pendingPam := Some(0)));
    ReachNext(s1, Claim(0), s2);
    var s3 := s2.(requests := [Request(Agent, Decided(false), false, Waiting, Dropped)], coord := s2.coord.(authPermit := true),
                  log := [DialogNotified(0)]);
    ReachNext(s2, Cancel(0), s3);
    s := s3.(requests := [Request(Agent, Cleared(false), false, Got(false), Dropped)], coord := s3.coord.(pendingPam := None),
             log := [DialogNotified(0), SlotDenied(0, 0)]);
    assert s == Next(s3, Clear(0));
    ReachNext(s3, Clear(0), s);
  }

  /** The authentication waited for dies of the stored permit. */
  function Denied(s: State): State
    requires s.pc.AuthWait? && s.pc.r < |s.requests|
  {
    var r := s.pc.r;
    s.(link := s.link.(authPending := false, auth := s.link.auth.Drop()), coord := s.coord.(authPermit := false), pc := Main,
       requests := s.requests[r := s.requests[r].(reply := Got(false))], log := s.log + [AuthKilled(r)] + [Replied(r, false)])
  }

  lemma Denies(s: State)
    requires s.pc.AuthWait? && s.pc.r < |s.requests| && s.call == Free && s.coord.authPermit && Reachable(s)
    ensures Reachable(Denied(s))
  {
    hide Reachable;
    var killed := s.(link := s.link.(authPending := false, auth := s.link.auth.Drop()), coord := s.coord.(authPermit := false),
                     pc := AuthClosing(s.pc.r), log := s.log + [AuthKilled(s.pc.r)]);
    assert killed == Next(s, SeeCancel);
    ReachNext(s, SeeCancel, killed);
    assert killed.link.auth.Drop() == killed.link.auth;
    assert Denied(s) == Next(killed, Close);
    ReachNext(killed, Close, Denied(s));
  }

  /** A run in which the second request is denied, though only the first was ever cancelled, and before the second arrived. */
  lemma DismissalDeniesNextRequest()
    ensures exists s ::
      && Reachable(s) && |s.requests| == 2 && s.requests[1].kind == Agent && s.requests[1].reply == Got(false)
      && s.log == [DialogNotified(0), SlotDenied(0, 0), Sent(1), Received(ASKED, true), AuthOpened(1), AuthKilled(1), Replied(1, false)]
  {
    var first := DialogDismissed();
    LeadsSelf(first);
    var waiting := NewAuth(first, first);
    ReachLeads(first, waiting);
    hide Reachable, Leads;
    Denies(waiting);
    var denied := Denied(waiting);
    assert denied.requests[1].reply == Got(false);
  }
}
