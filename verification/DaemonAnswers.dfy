/** Who is owed an OK gets one: what a touch, a granted authentication and an armed window lead to. */
module DaemonAnswers {
  import opened Wire
  import opened Link
  import opened Coordinator
  import opened Daemon
  import opened DaemonHistory
  import opened DaemonRuns
  import Approvals = DaemonApprovals
  import Ledger = DaemonLedger
  import Slot = DaemonSlot
  import Waits = DaemonWaits

  /** With no cancel in between, `r` can be answered OK from here on. */
  ghost predicate CanBeAnswered(s: State, r: nat) {
    r < |s.requests| && exists t :: Leads(s, t) && |s.log| < |t.log| && t.log[|t.log| - 1] == Approved(r, s.requests[r].kind)
  }

  predicate Stands(s: State, r: nat, phase: Phase) {
    r < |s.requests| && s.requests[r].kind.Authenticates() && s.requests[r].phase == phase
  }

  // ---- From the verdict to the answer ----

  /** Request `r` alone moved on, and kept its kind. */
  predicate Moved(s: State, t: State, r: nat, phase: Phase) {
    && |t.requests| == |s.requests| && r < |s.requests| && t.requests[r].phase == phase
    && t.requests[r].kind == s.requests[r].kind && |s.log| <= |t.log|
  }

  lemma ClearMoves(s: State, r: nat)
    requires Stands(s, r, Decided(true))
    ensures Moved(s, Next(s, Clear(r)), r, Cleared(true))
  {
  }

  lemma BridgeMoves(s: State, r: nat)
    requires Stands(s, r, Cleared(true)) && s.requests[r].kind.Agent?
    ensures Moved(s, Next(s, Bridge(r)), r, Bridged)
  {
    hide Arm;
  }

  lemma AnswerMoves(s: State, r: nat)
    requires Stands(s, r, if r < |s.requests| && s.requests[r].kind.Agent? then Bridged else Cleared(true))
    ensures Next(s, Answer(r)).log == s.log + [Approved(r, s.requests[r].kind)]
  {
  }

  lemma DecidedIsAnswered(from: State, s: State, r: nat) returns (t: State)
    requires Leads(from, s) && Stands(s, r, Decided(true))
    ensures Leads(from, t) && |s.log| < |t.log| && t.log[|t.log| - 1] == Approved(r, s.requests[r].kind)
  {
    var cleared := Next(s, Clear(r));
    ClearMoves(s, r);
    LeadsNext(from, s, Clear(r), cleared);
    var ready := cleared;
    if s.requests[r].kind.Agent? {
      BridgeMoves(cleared, r);
      ready := Next(cleared, Bridge(r));
      LeadsNext(from, cleared, Bridge(r), ready);
    }
    AnswerMoves(ready, r);
    t := Next(ready, Answer(r));
    LeadsNext(from, ready, Answer(r), t);
    hide Leads, Next;
  }

  /** The slot or the worker has said yes to a request that still races. */
  predicate Favoured(s: State, r: nat) {
    Stands(s, r, Racing) && (s.requests[r].pending == Got(true) || s.requests[r].reply == Got(true))
  }

  lemma TakeMoves(s: State, r: nat)
    requires Favoured(s, r)
    ensures s.requests[r].pending == Got(true) ==> Moved(s, Next(s, TakePending(r)), r, Decided(true))
    ensures s.requests[r].reply == Got(true) ==> Moved(s, Next(s, TakeReply(r)), r, Decided(true))
  {
  }

  lemma FavouredIsAnswered(from: State, s: State, r: nat) returns (t: State)
    requires Leads(from, s) && Favoured(s, r)
    ensures Leads(from, t) && |s.log| < |t.log| && t.log[|t.log| - 1] == Approved(r, s.requests[r].kind)
  {
    TakeMoves(s, r);
    var a := if s.requests[r].pending == Got(true) then TakePending(r) else TakeReply(r);
    var decided := Next(s, a);
    LeadsNext(from, s, a, decided);
    hide Leads, Next;
    t := DecidedIsAnswered(from, decided, r);
  }

  /** A racing PAM or agent request whose slot or worker has said yes can be answered OK, in every state. */
  lemma YesIsAnswered(s: State, r: nat)
    requires Favoured(s, r)
    ensures CanBeAnswered(s, r)
  {
    LeadsSelf(s);
    hide Leads;
    var t := FavouredIsAnswered(s, s, r);
  }

  // ---- A touch ----

  /** A fingerprint match whose HMAC verifies. */
  predicate IsGenuineMatch(f: Frame) {
    f.genuine && |f.bytes| == 11 && f.bytes[0] == 0x21
  }

  lemma TouchComesIn(s: State, f: Frame)
    requires IsGenuineMatch(f) && Listening(s) && Quiet(s.link)
    ensures Next(s, Deliver(f)) == s.(call := Approving, log := s.log + [Received(f, true)])
  {
    MatchNeedsGenuineIdle(s.link, f);
    hide Route, RouteMatch, LittleEndian;
  }

  lemma TouchTells(s: State, r: nat)
    requires s.call == Approving && s.coord.pendingPam == Some(r) && r < |s.requests|
    ensures var t := Next(s, Proceed(true));
      && t.requests == s.requests[r := s.requests[r].(pending := Got(true))] && t.log == s.log + [SlotApproved(r)]
  {
  }

  lemma ToldIsAnswered(s: State, r: nat)
    requires s.call == Approving && s.coord.pendingPam == Some(r) && Stands(s, r, Racing)
    ensures CanBeAnswered(s, r)
  {
    hide Leads, Next;
    var told := Next(s, Proceed(true));
    TouchTells(s, r);
    LeadsSelf(s);
    LeadsNext(s, s, Proceed(true), told);
    var t := FavouredIsAnswered(s, told, r);
  }

  /**
   * In every reachable state in which no gate, authentication or pairing gate is open, a verified touch approves the
   * request that holds the slot, if it still races: it can be answered OK.
   */
  lemma TouchIsAnswered(actions: seq<Action>, r: nat, f: Frame)
    requires IsGenuineMatch(f) && Listening(Run(actions)) && Quiet(Run(actions).link)
    requires Run(actions).coord.pendingPam == Some(r) && Stands(Run(actions), r, Racing)
    ensures CanBeAnswered(Next(Run(actions), Deliver(f)), r)
  {
    var s := Run(actions);
    hide Run, Next;
    TouchComesIn(s, f);
    hide CanBeAnswered, Quiet, Listening, IsGenuineMatch;
    ToldIsAnswered(Next(s, Deliver(f)), r);
  }

  // ---- A granted authentication ----

  lemma GrantComesIn(s: State, r: nat, f: Frame)
    requires Waits.Inv(s) && s.pc == AuthWait(r) && s.call == Free && s.link.authPending && f.bytes != [] && f.bytes[0] == 0x00
    ensures var t := Next(s, Deliver(f));
      t.pc == s.pc && t.call == Free && t.requests == s.requests && t.link.auth.rx == Got(true) && |s.log| < |t.log|
  {
    hide LittleEndian;
  }

  lemma GrantIsReplied(s: State, r: nat)
    requires s.pc == AuthWait(r) && s.call == Free && s.link.auth.rx == Got(true) && r < |s.requests|
    ensures var t := Next(s, Resolve);
      t.requests == s.requests[r := s.requests[r].(reply := Got(true))] && |s.log| < |t.log|
  {
  }

  lemma GrantedIsAnswered(s: State, r: nat)
    requires s.pc == AuthWait(r) && s.call == Free && s.link.auth.rx == Got(true) && Stands(s, r, Racing)
    ensures CanBeAnswered(s, r)
  {
    hide Leads, Next;
    var replied := Next(s, Resolve);
    GrantIsReplied(s, r);
    LeadsSelf(s);
    LeadsNext(s, s, Resolve, replied);
    var t := FavouredIsAnswered(s, replied, r);
  }

  /** In every reachable state in which `r`'s own authentication is open, a success frame grants it: `r` can be answered OK. */
  lemma GrantIsAnswered(actions: seq<Action>, r: nat, f: Frame)
    requires Run(actions).pc == AuthWait(r) && Run(actions).call == Free && Run(actions).link.authPending
    requires Stands(Run(actions), r, Racing) && f.bytes != [] && f.bytes[0] == 0x00
    ensures CanBeAnswered(Next(Run(actions), Deliver(f)), r)
  {
    var s := Run(actions);
    Waits.RunKeeps(actions);
    hide Run, Next, Waits.Inv;
    GrantComesIn(s, r, f);
    hide CanBeAnswered;
    GrantedIsAnswered(Next(s, Deliver(f)), r);
  }

  // ---- What a frame leads to ----

  predicate CarriesOut(s: State, pc: Pc, r: nat) {
    Waits.Inv(s) && s.pc == pc && s.call == Free && r < |s.requests|
  }

  /** A frame that is no notification answers the command that waits. */
  lemma AnswerComesIn(s: State, r: nat, f: Frame)
    requires CarriesOut(s, CommandWait(r), r) && s.link.response == Oneshot(true, Waiting) && f.bytes != [] && !IsAsync(f.bytes)
    ensures Next(s, Deliver(f)) ==
      s.(link := s.link.(response := Oneshot(false, Got(f.bytes))), log := s.log + [Received(f, true)])
  {
    ResponseStep(s.link, f);
    assert Route(s.link, f) == Routed(s.link.(response := s.link.response.Send(f.bytes)), Nothing);
    hide Route;
  }

  /** What the answer to a command of this kind makes of it. */
  function Outcome(kind: Kind, r: nat, first: byte): Event {
    if kind.Plain? || first == 0x00 then Replied(r, true)
    else if (kind.Gated? || kind.Secret?) && (first == 0x10 || first == 0x11) then GateOpened(r)
    else if kind.Authenticates() && first == 0x11 then AuthOpened(r)
    else Replied(r, false)
  }

  lemma AnswerIsResolved(s: State, r: nat)
    requires CarriesOut(s, CommandWait(r), r) && s.link.response.rx.Got? && s.link.response.rx.value != []
    requires !s.requests[r].kind.Pairing?
    ensures var t, e := Next(s, Resolve), Outcome(s.requests[r].kind, r, s.link.response.rx.value[0]);
      && t.log == s.log + [e] && t.queue == s.queue
      && (e.Replied? ==> t.pc == Main && t.requests == s.requests[r := s.requests[r].(reply := Got(e.ok))])
      && (e.GateOpened? ==> t.pc == GateWait(r) && t.coord.gateActive && t.link.gatePending && t.requests == s.requests)
      && (e.AuthOpened? ==> t.pc == AuthWait(r) && t.link.authPending && t.requests == s.requests)
  {
    assert Next(s, Resolve) == Answered(s, r, s.link.response.rx.value);
    hide Next, Waits.Inv;
  }

  /** A frame that settles a gate or an authentication, as the third mismatch, an error or the success. */
  predicate Ends(l: Link, f: Frame, ok: bool) {
    if ok then f.bytes != [] && f.bytes[0] == 0x00
    else f.bytes != [] && !IsAsync(f.bytes) && (f.bytes[0] in {0x06, 0xFE, 0xFF} || (f.bytes[0] == 0x07 && l.failures == 2))
  }

  lemma GateFrameEnds(s: State, r: nat, f: Frame, ok: bool)
    requires CarriesOut(s, GateWait(r), r) && s.link.gatePending && s.link.gate.rx == Waiting && Ends(s.link, f, ok)
    ensures var t := Next(s, Deliver(f));
      && t.log == s.log + [Received(f, false)] && t.link.gate.rx.Got? && t.link.gate.rx.value.passed == ok
      && t.pc == s.pc && t.call == Free && t.requests == s.requests && t.queue == s.queue
  {
    hide LittleEndian;
  }

  lemma GateResultReturns(s: State, r: nat)
    requires s.pc == GateWait(r) && s.call == Free && r < |s.requests| && s.link.gate.rx.Got?
    ensures var t, ok := Next(s, Resolve), s.link.gate.rx.value.passed;
      && t.log == s.log + [Replied(r, ok), GateClosed(r)] && t.pc == Main && !t.coord.gateActive && t.queue == s.queue
      && t.requests == s.requests[r := s.requests[r].(reply := Got(ok))]
  {
    assert Next(s, Resolve) == CloseGate(s, r, s.link.gate.rx.value.passed);
    hide Next;
  }

  /**
   * In every reachable state with `r`'s gate open, a success passes it and an error or the third mismatch fails it: the worker
   * replies so to `r`, closes the gate and goes back to its queue.
   */
  lemma GateIsSettled(actions: seq<Action>, r: nat, f: Frame, ok: bool)
    requires var s := Run(actions); s.pc == GateWait(r) && s.call == Free && r < |s.requests| && s.link.gatePending
    requires Run(actions).link.gate.rx == Waiting && Ends(Run(actions).link, f, ok)
    ensures var s := Run(actions);
      var t := Next(Next(s, Deliver(f)), Resolve);
      && t.log == s.log + [Received(f, false), Replied(r, ok), GateClosed(r)] && t.pc == Main && !t.coord.gateActive
      && t.requests == s.requests[r := s.requests[r].(reply := Got(ok))] && t.queue == s.queue
  {
    var s := Run(actions);
    Waits.RunKeeps(actions);
    hide Run, Next, Waits.Inv, Ends;
    GateFrameEnds(s, r, f, ok);
    GateResultReturns(Next(s, Deliver(f)), r);
  }

  lemma AuthFrameEnds(s: State, r: nat, f: Frame, ok: bool)
    requires CarriesOut(s, AuthWait(r), r) && s.link.authPending && s.link.auth.rx == Waiting && Ends(s.link, f, ok)
    ensures var t := Next(s, Deliver(f));
      && t.log == s.log + [Received(f, false)] && t.link.auth.rx == Got(ok)
      && t.pc == s.pc && t.call == Free && t.requests == s.requests && t.queue == s.queue
  {
    hide LittleEndian;
  }

  lemma AuthResultReturns(s: State, r: nat)
    requires s.pc == AuthWait(r) && s.call == Free && r < |s.requests| && s.link.auth.rx.Got?
    ensures var t, ok := Next(s, Resolve), s.link.auth.rx.value;
      && t.log == s.log + [Replied(r, ok)] && t.pc == Main && t.queue == s.queue
      && t.requests == s.requests[r := s.requests[r].(reply := Got(ok))]
  {
    assert Next(s, Resolve) == CloseAuth(s, r, s.link.auth.rx.value);
    hide Next;
  }

  /** In every reachable state with `r`'s authentication open, the same: it is told yes, or told no. */
  lemma AuthIsSettled(actions: seq<Action>, r: nat, f: Frame, ok: bool)
    requires var s := Run(actions); s.pc == AuthWait(r) && s.call == Free && r < |s.requests| && s.link.authPending
    requires Run(actions).link.auth.rx == Waiting && Ends(Run(actions).link, f, ok)
    ensures var s := Run(actions);
      var t := Next(Next(s, Deliver(f)), Resolve);
      && t.log == s.log + [Received(f, false), Replied(r, ok)] && t.pc == Main
      && t.requests == s.requests[r := s.requests[r].(reply := Got(ok))] && t.queue == s.queue
  {
    var s := Run(actions);
    Waits.RunKeeps(actions);
    hide Run, Next, Waits.Inv, Ends;
    AuthFrameEnds(s, r, f, ok);
    AuthResultReturns(Next(s, Deliver(f)), r);
  }

  /** The worker told `r` no and is back at its queue. */
  predicate TellsNo(s: State, t: State, r: nat, events: seq<Event>) {
    && r < |s.requests| && t.log == s.log + events && t.pc == Main && t.queue == s.queue
    && t.requests == s.requests[r := s.requests[r].(reply := Got(false))]
  }

  /** A stored permit ends the wait it is for: it is used up, and the request told no. */
  lemma PermitDenies(s: State, r: nat)
    requires r < |s.requests| && s.call == Free
    ensures s.pc == GateWait(r) && s.coord.gatePermit ==>
      var t := Next(Next(s, SeeCancel), Close);
      TellsNo(s, t, r, [GateKilled(r), Replied(r, false), GateClosed(r)]) && !t.coord.gatePermit && !t.coord.gateActive
    ensures s.pc == AuthWait(r) && s.coord.authPermit ==>
      var t := Next(Next(s, SeeCancel), Close);
      TellsNo(s, t, r, [AuthKilled(r), Replied(r, false)]) && !t.coord.authPermit
  {
    var seen := Next(s, SeeCancel);
    hide Next;
    if s.pc == GateWait(r) && s.coord.gatePermit {
      PermitSeen(s, r);
      ClosingDenies(seen, r);
    } else if s.pc == AuthWait(r) && s.coord.authPermit {
      PermitSeen(s, r);
      ClosingDenies(seen, r);
    }
  }

  lemma PermitSeen(s: State, r: nat)
    requires s.call == Free && ((s.pc == GateWait(r) && s.coord.gatePermit) || (s.pc == AuthWait(r) && s.coord.authPermit))
    ensures var t := Next(s, SeeCancel);
      && t.requests == s.requests && t.queue == s.queue
      && (if s.pc.GateWait? then t.pc == GateClosing(r) && t.log == s.log + [GateKilled(r)] && !t.coord.gatePermit
          else t.pc == AuthClosing(r) && t.log == s.log + [AuthKilled(r)] && !t.coord.authPermit)
  {
  }

  lemma ClosingDenies(s: State, r: nat)
    requires r < |s.requests| && (s.pc == GateClosing(r) || s.pc == AuthClosing(r))
    ensures var t := Next(s, Close);
      && TellsNo(s, t, r, if s.pc.GateClosing? then [Replied(r, false), GateClosed(r)] else [Replied(r, false)])
      && t.coord == if s.pc.GateClosing? then s.coord.(gateActive := false) else s.coord
  {
    assert Next(s, Close) == CloseStep(s);
    hide Next;
  }

  /** So does the deadline, of whatever the worker waits for. */
  lemma DeadlineDenies(s: State, r: nat)
    requires r < |s.requests| && s.call == Free && (s.pc == CommandWait(r) || s.pc == GateWait(r) || s.pc == AuthWait(r))
    ensures var t := Next(s, Expire);
      TellsNo(s, t, r, if s.pc.GateWait? then [Replied(r, false), GateClosed(r)] else [Replied(r, false)])
  {
    assert Next(s, Expire) == ExpireStep(s);
    hide Next;
  }

  /**
   * In every reachable state in which `r`'s command waits for its answer, the next frame that is no notification decides what
   * becomes of it: a reply, the gate or the authentication opens.
   */
  lemma AnswerLeadsOn(actions: seq<Action>, r: nat, f: Frame)
    requires var s := Run(actions); s.pc == CommandWait(r) && s.call == Free && r < |s.requests| && !s.requests[r].kind.Pairing?
    requires Run(actions).link.response == Oneshot(true, Waiting) && f.bytes != [] && !IsAsync(f.bytes)
    ensures var s := Run(actions);
      var t, e := Next(Next(s, Deliver(f)), Resolve), Outcome(s.requests[r].kind, r, f.bytes[0]);
      && t.log == s.log + [Received(f, true), e] && t.queue == s.queue
      && (e.Replied? ==> t.pc == Main && t.requests == s.requests[r := s.requests[r].(reply := Got(e.ok))])
      && (e.GateOpened? ==> t.pc == GateWait(r) && t.coord.gateActive && t.link.gatePending && t.requests == s.requests)
      && (e.AuthOpened? ==> t.pc == AuthWait(r) && t.link.authPending && t.requests == s.requests)
  {
    var s := Run(actions);
    Waits.RunKeeps(actions);
    hide Run, Next, Outcome;
    AnswerComesIn(s, r, f);
    AnsweredAgrees(s, f);
    hide Waits.Inv, IsAsync;
    AnswerIsResolved(Next(s, Deliver(f)), r);
  }

  lemma AnsweredAgrees(s: State, f: Frame)
    requires Waits.Inv(s)
    ensures Waits.Inv(Next(s, Deliver(f)))
  {
    Waits.DeliverKeeps(s, f);
    hide Waits.Inv;
  }

  /** A link that drops while the worker is at its queue leaves nobody waiting on it, and no gate or authentication open. */
  lemma DroppedLinkEndsAll(s: State)
    requires s.pc == Main && s.call == Free
    ensures var t := Next(s, Disconnect);
      && !t.link.response.armed && !t.link.gate.armed && !t.link.auth.armed && !t.link.button.armed
      && (s.link.response.armed ==> t.link.response.rx == Dropped)
      && t == s.(link := t.link)
  {
  }

  /** A handler that may claim the slot gets it, if it is empty, and is turned away at once, if it is not. */
  lemma SlotIsForOne(s: State, r: nat)
    requires r < |s.requests| && s.requests[r].kind.Claims()
    requires s.requests[r].phase == if s.requests[r].kind.Pam? then Unwindowed else Fresh
    ensures var t := Next(s, Claim(r));
      if s.coord.pendingPam.None? then
        t == s.(requests := s.requests[r := s.requests[r].(phase := Racing, pending := Waiting)], coord := s.coord.(pendingPam := Some(r)))
      else t == s.(requests := s.requests[r := s.requests[r].(phase := Finished)])
  {
  }

  /** A sudo request inside the window is answered at once, and outside goes on to the slot. */
  lemma WindowIsAsked(s: State, r: nat)
    requires r < |s.requests| && s.requests[r].kind.Pam? && s.requests[r].phase == Fresh
    ensures var t, service := Next(s, CheckWindow(r)), s.requests[r].kind.service;
      if Admits(s.coord.preAuth, s.now, service) then
        t.log == s.log + [Windowed(r, service, s.now)] && t.requests == s.requests[r := s.requests[r].(phase := Finished)]
      else t.log == s.log && t.requests == s.requests[r := s.requests[r].(phase := Unwindowed)]
  {
    hide Admits;
  }

  // ---- The steps of a touch add up to the coordinator's operation ----

  function Proceeds(s: State, ok: bool, n: nat): State {
    if n == 0 then s else Next(Proceeds(s, ok, n - 1), Proceed(ok))
  }

  lemma StampStep(s: State, ok: bool)
    requires s.call == Approving && s.coord.pendingPam.Some?
    ensures var t := Next(s, Proceed(ok)); t == s.(call := Stamping, coord := s.coord.(pendingPam := None), log := t.log, requests := t.requests)
    ensures var t := Next(Next(s, Proceed(ok)), Proceed(ok));
      t.call == Following && t.coord == s.coord.(pendingPam := None, lastFlow := Some(s.now)) && t.locked == s.locked && t.now == s.now
  {
  }

  lemma FollowStep(s: State, ok: bool)
    requires s.call == Following || s.call == Unlocking
    ensures var t := Next(s, Proceed(ok));
      && t.call == Free
      && t.coord == s.coord.(preAuth := if if s.call == Following then s.locked else ok then Some(Arm(s.now, UNLOCK_WINDOW, UNLOCK_SERVICES)) else s.coord.preAuth)
  {
    hide Arm;
  }

  lemma UnlockStep(s: State, ok: bool)
    requires s.call == Approving && s.coord.pendingPam.None?
    ensures var t := Next(Next(s, Proceed(ok)), Proceed(ok));
      if s.locked && s.unlockEnabled then t == s.(call := Unlocking, coord := s.coord.(lastFlow := Some(s.now)))
      else t == s.(call := Free)
  {
  }

  lemma IdleStep(s: State, ok: bool)
    requires s.call == Free
    ensures Next(s, Proceed(ok)) == s
  {
  }

  /** With nothing in between, the steps of `on_fp_match` leave the coordinator as `OnFpMatch` does, whoever holds the slot. */
  lemma TouchAddsUp(s: State, ok: bool)
    requires s.call == Approving
    ensures var t := Proceeds(s, ok, 3);
      t.call == Free && t.coord == Touch(s.coord, s.now, s.locked, s.unlockEnabled, ok)
  {
    var two := Next(Next(s, Proceed(ok)), Proceed(ok));
    assert Proceeds(s, ok, 1) == Next(s, Proceed(ok));
    assert Proceeds(s, ok, 2) == two;
    assert Proceeds(s, ok, 3) == Next(two, Proceed(ok));
    hide Proceeds, Arm, Next;
    if s.coord.pendingPam.Some? {
      StampStep(s, ok);
      FollowStep(two, ok);
    } else {
      UnlockStep(s, ok);
      if s.locked && s.unlockEnabled {
        FollowStep(two, ok);
      } else {
        IdleStep(two, ok);
      }
    }
  }

  /** The steps of a lock request clear the window exactly when `HandleLockRequest` does. */
  lemma LockAddsUp(s: State, ok: bool)
    requires s.call == CheckingLock
    ensures var t := Proceeds(s, ok, 2);
      && t.call == Free && t.coord == s.coord.(preAuth := if MayLock(s.lockEnabled, s.locked, s.coord.lastFlow, s.now) then None else s.coord.preAuth)
      && t.log == s.log + if MayLock(s.lockEnabled, s.locked, s.coord.lastFlow, s.now) then [WindowCleared] else []
  {
    hide MayLock;
    var one := Next(s, Proceed(ok));
    assert Proceeds(s, ok, 1) == one;
    assert Proceeds(s, ok, 2) == Next(one, Proceed(ok));
    hide Proceeds;
  }

  /** A lock request reaches the coordinator whatever else is open. */
  lemma LockComesIn(s: State, genuine: bool)
    requires Listening(s)
    ensures var f := Frame([0x23], genuine);
      Next(s, Deliver(f)) == s.(call := CheckingLock, log := s.log + [Received(f, Quiet(s.link))])
  {
    assert Route(s.link, Frame([0x23], genuine)) == Routed(s.link, LockRequested);
    hide Route, Quiet;
  }

  /** From the frame on: a lock request clears the window if the feature is on, the screen open and no authentication 3 s old or less. */
  lemma LockClearsWindow(s: State, genuine: bool, ok: bool)
    requires Listening(s)
    ensures var t := Proceeds(Next(s, Deliver(Frame([0x23], genuine))), ok, 2);
      && t.call == Free
      && t.coord.preAuth ==
         (if s.lockEnabled && !s.locked && (s.coord.lastFlow.Some? ==> s.now - s.coord.lastFlow.value >= 3_000) then None else s.coord.preAuth)
  {
    LockComesIn(s, genuine);
    var t := Next(s, Deliver(Frame([0x23], genuine)));
    hide Next, Proceeds, Quiet, Listening;
    LockAddsUp(t, ok);
  }

  // ---- Complete runs from the start ----

  lemma Takes(s: State, r: nat, reply: bool)
    requires r < |s.requests| && s.requests[r].kind.Authenticates() && s.requests[r].phase == Racing
    requires (if reply then s.requests[r].reply else s.requests[r].pending) == Got(true)
    ensures Next(s, if reply then TakeReply(r) else TakePending(r)) == Log(Put(s, r, s.requests[r].(phase := Decided(true))), Accepted(r, s.requests[r].kind))
  {
  }

  /** The handler clears its own claim, or finds the slot empty. */
  lemma Clears(s: State, r: nat)
    requires r < |s.requests| && s.requests[r].phase == Decided(true) && (s.coord.pendingPam == None || s.coord.pendingPam == Some(r))
    ensures var q := s.requests[r].(phase := Cleared(true));
      Next(s, Clear(r)) ==
        if s.coord.pendingPam == None then Put(s, r, q)
        else Log(Put(s, r, q.(pending := Got(false))), SlotDenied(r, r)).(coord := s.coord.(pendingPam := None))
  {
    var q := s.requests[r].(phase := Cleared(true));
    assert s.requests[r := q][r := q.(pending := Got(false))] == s.requests[r := q.(pending := Got(false))];
  }

  lemma Windows(now: nat)
    ensures Arm(now, SUDO_WINDOW, SUDO_SERVICES) == PreAuth(now + 10_000, SUDO_SERVICES)
    ensures Arm(now, UNLOCK_WINDOW, UNLOCK_SERVICES) == PreAuth(now + 3_000, UNLOCK_SERVICES)
  {
    ArmedServices(now, SUDO_WINDOW);
    ArmedServices(now, UNLOCK_WINDOW);
    hide Lower;
  }

  lemma Bridges(s: State, r: nat)
    requires r < |s.requests| && s.requests[r].kind.Agent? && s.requests[r].phase == Cleared(true)
    ensures var w := PreAuth(s.now + 10_000, SUDO_SERVICES);
      Next(s, Bridge(r)) ==
        Log(Put(s, r, s.requests[r].(phase := Bridged)), WindowArmed(w, s.now, Some(r))).(coord := s.coord.(preAuth := Some(w)))
  {
    hide Arm;
    Windows(s.now);
  }

  lemma Answers(s: State, r: nat)
    requires Stands(s, r, if r < |s.requests| && s.requests[r].kind.Agent? then Bridged else Cleared(true))
    ensures Next(s, Answer(r)) == Log(Put(s, r, s.requests[r].(phase := Finished)), Approved(r, s.requests[r].kind))
  {
  }

  /** A sudo request is touched and answered OK. */
  lemma TouchedSudoIsAnswered()
    ensures exists s :: Reachable(s) && s.log == [Received(Slot.TOUCH, true), SlotApproved(0), Accepted(0, Slot.SUDO), Approved(0, Slot.SUDO)]
  {
    var s0 := Slot.TouchApproves();
    hide Reachable, Next;
    Takes(s0, 0, false);
    var s1 := Next(s0, TakePending(0));
    ReachNext(s0, TakePending(0), s1);
    Clears(s1, 0);
    var s2 := Next(s1, Clear(0));
    ReachNext(s1, Clear(0), s2);
    Answers(s2, 0);
    var s3 := Next(s2, Answer(0));
    ReachNext(s2, Answer(0), s3);
  }

  const GRANTED: seq<Event> :=
    [Sent(0), Received(ASKED, true), AuthOpened(0), Received(PASSED, false), Replied(0, true)]

  lemma FirstAuthOpens() returns (s: State)
    ensures Reachable(s) && s == AtAuth(Asked(SentOut(AgentQueued(START))))
  {
    StartReachable();
    LeadsSelf(START);
    s := NewAuth(START, START);
    ReachLeads(START, s);
  }

  lemma FingerGrants(s: State, r: nat)
    requires s.pc == AuthWait(r) && s.call == Free && s.link.authPending && s.link.auth == Oneshot(true, Waiting) && !s.link.gatePending && !s.link.pairFpGate
    ensures var l := s.link.(authPending := false, auth := Oneshot(false, Got(true)));
      Next(s, Deliver(PASSED)) == s.(link := l, log := s.log + [Received(PASSED, false)])
  {
    assert Route(s.link, PASSED) == Routed(s.link.(authPending := false, auth := Oneshot(false, Got(true))), Nothing);
    hide Route;
  }

  lemma GrantReturns(s: State, r: nat)
    requires s.pc == AuthWait(r) && s.call == Free && s.link.auth.rx == Got(true) && r < |s.requests|
    ensures var t := Next(s, Resolve);
      && t.requests == s.requests[r := s.requests[r].(reply := Got(true))] && t.log == s.log + [Replied(r, true)]
      && t.coord == s.coord && t.now == s.now
  {
  }

  /** An agent request's own authentication succeeds. */
  lemma AgentIsGranted() returns (s: State)
    ensures Reachable(s) && s.requests == [Request(Agent, Racing, true, Waiting, Got(true))] && s.now == 0
    ensures s.coord.pendingPam == Some(0) && s.log == GRANTED
  {
    var s0 := FirstAuthOpens();
    hide Reachable, Next;
    FingerGrants(s0, 0);
    var s1 := Next(s0, Deliver(PASSED));
    ReachNext(s0, Deliver(PASSED), s1);
    GrantReturns(s1, 0);
    s := Next(s1, Resolve);
    ReachNext(s1, Resolve, s);
  }

  const AGENT_WINDOW: PreAuth := PreAuth(10_000, SUDO_SERVICES)

  /** It is answered OK, after the window for sudo is armed. */
  lemma AgentIsAnswered() returns (s: State)
    ensures Reachable(s) && |s.requests| == 1 && s.coord.preAuth == Some(AGENT_WINDOW) && s.now == 0
    ensures s.log == GRANTED + [Accepted(0, Agent), SlotDenied(0, 0), WindowArmed(AGENT_WINDOW, 0, Some(0)), Approved(0, Agent)]
  {
    var s0 := AgentIsGranted();
    hide Reachable, Next;
    Takes(s0, 0, true);
    var s1 := Next(s0, TakeReply(0));
    ReachNext(s0, TakeReply(0), s1);
    Clears(s1, 0);
    var s2 := Next(s1, Clear(0));
    ReachNext(s1, Clear(0), s2);
    Bridges(s2, 0);
    var s3 := Next(s2, Bridge(0));
    ReachNext(s2, Bridge(0), s3);
    Answers(s3, 0);
    s := Next(s3, Answer(0));
    ReachNext(s3, Answer(0), s);
  }

  lemma WindowLets(s: State, r: nat, service: string)
    requires Admits(s.coord.preAuth, s.now, service)
    ensures var t := Next(s, Arrive(Pam(service)));
      Next(t, CheckWindow(|s.requests|)).log == s.log + [Windowed(|s.requests|, service, s.now)]
  {
    hide Admits;
  }

  /** A request for `service` that arrives while the window lets it through is answered at once. */
  lemma WindowAnswers(s: State, service: string) returns (t: State)
    requires Reachable(s) && Admits(s.coord.preAuth, s.now, service)
    ensures Reachable(t) && t.log == s.log + [Windowed(|s.requests|, service, s.now)]
  {
    hide Reachable, Next;
    WindowLets(s, |s.requests|, service);
    var s1 := Next(s, Arrive(Pam(service)));
    ReachNext(s, Arrive(Pam(service)), s1);
    t := Next(s1, CheckWindow(|s.requests|));
    ReachNext(s1, CheckWindow(|s.requests|), t);
  }

  /** An agent request is granted by an authentication of its own, and the sudo that follows rides its window, in any spelling. */
  lemma AgentCarriesSudo()
    ensures exists s ::
      && Reachable(s)
      && s.log == GRANTED +
         [Accepted(0, Agent), SlotDenied(0, 0), WindowArmed(AGENT_WINDOW, 0, Some(0)), Approved(0, Agent), Windowed(1, "Sudo", 0)]
  {
    var s := AgentIsAnswered();
    assert Lower("Sudo") == "sudo";
    assert Admits(s.coord.preAuth, s.now, "Sudo");
    hide Reachable, Admits;
    var t := WindowAnswers(s, "Sudo");
  }

  lemma WindowLetsNot(s: State, service: string, ms: nat)
    requires !Admits(s.coord.preAuth, s.now + ms, service)
    ensures var t := Next(Next(Next(s, Tick(ms)), Arrive(Pam(service))), CheckWindow(|s.requests|));
      t.log == s.log && t.now == s.now + ms && t.requests == s.requests + [Request(Pam(service), Unwindowed, false, Dropped, Dropped)]
  {
    hide Admits;
    var q := Request(Pam(service), Fresh, false, Dropped, Dropped);
    assert (s.requests + [q])[|s.requests| := q.(phase := Unwindowed)] == s.requests + [q.(phase := Unwindowed)];
  }

  /** Ten seconds later it does not: that sudo has to ask for a finger of its own. */
  lemma WindowRunsOut()
    ensures exists s ::
      && Reachable(s) && s.now == 10_000 && |s.requests| == 2 && s.requests[1].phase == Unwindowed
      && s.log == GRANTED + [Accepted(0, Agent), SlotDenied(0, 0), WindowArmed(AGENT_WINDOW, 0, Some(0)), Approved(0, Agent)]
  {
    var s := AgentIsAnswered();
    assert !Admits(s.coord.preAuth, 10_000, "sudo");
    hide Reachable, Admits, Next;
    WindowLetsNot(s, "sudo", 10_000);
    var s1 := Next(s, Tick(10_000));
    ReachNext(s, Tick(10_000), s1);
    var s2 := Next(s1, Arrive(Pam("sudo")));
    ReachNext(s1, Arrive(Pam("sudo")), s2);
    var s3 := Next(s2, CheckWindow(1));
    ReachNext(s2, CheckWindow(1), s3);
  }

  const SCREEN_WINDOW: PreAuth := PreAuth(3_000, UNLOCK_SERVICES)

  /** A touch reaches a locked screen that may be unlocked. */
  lemma LockedIsTouched() returns (s: State)
    ensures Reachable(s) && s == START.(locked := true, unlockEnabled := true, call := Approving, log := [Received(Slot.TOUCH, true)])
  {
    StartReachable();
    hide Reachable;
    var s0 := START.(locked := true);
    ReachNext(START, Screen(true), s0);
    var s1 := s0.(unlockEnabled := true);
    ReachNext(s0, Settings(true, false), s1);
    TouchComesIn(s1, Slot.TOUCH);
    hide Next;
    s := Next(s1, Deliver(Slot.TOUCH));
    ReachNext(s1, Deliver(Slot.TOUCH), s);
  }

  lemma UnlockArms(s: State)
    requires s.call == Unlocking
    ensures var w := PreAuth(s.now + 3_000, UNLOCK_SERVICES);
      Next(s, Proceed(true)) == s.(call := Free, coord := s.coord.(preAuth := Some(w)), log := s.log + [WindowArmed(w, s.now, None)])
  {
    hide Arm;
    Windows(s.now);
  }

  /** On a locked screen, with nobody in the slot, a touch unlocks; the login that follows rides the window. */
  lemma TouchUnlocks()
    ensures exists s ::
      Reachable(s) && s.log == [Received(Slot.TOUCH, true), WindowArmed(SCREEN_WINDOW, 0, None), Windowed(0, "login", 0)]
  {
    var s0 := LockedIsTouched();
    hide Reachable, Next;
    UnlockStep(s0, true);
    var s1 := Next(s0, Proceed(true));
    ReachNext(s0, Proceed(true), s1);
    var s2 := Next(s1, Proceed(true));
    ReachNext(s1, Proceed(true), s2);
    UnlockArms(s2);
    var s3 := Next(s2, Proceed(true));
    ReachNext(s2, Proceed(true), s3);
    assert Lower("login") == "login";
    assert Admits(s3.coord.preAuth, 0, "login");
    hide Admits;
    var t := WindowAnswers(s3, "login");
  }
}
