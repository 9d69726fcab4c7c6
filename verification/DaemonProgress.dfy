/** Nobody waits for ever: from every reachable state each request can be brought to its end without a cancel. */
module DaemonProgress {
  import opened Wire
  import opened Link
  import opened Coordinator
  import opened Daemon
  import opened DaemonRuns

  // ---- What a request may be waiting for ----

  /** How far a request of its kind can be, and that a queued command has somewhere to send its reply. */
  predicate Shape(q: Request) {
    && (q.sent ==> q.reply != Dropped && q.phase != Fresh && q.phase != Unwindowed)
    && match q.phase
      case Fresh => !q.kind.Gated?
      case Unwindowed => q.kind.Pam?
      case Racing => q.sent || q.kind.Claims() || q.kind.Gated?
      case Decided(ok) => q.kind.Authenticates() || (q.kind.Secret? && !ok)
      case Cleared(ok) => q.kind.Authenticates() || (q.kind.Secret? && !ok)
      case Bridged => q.kind.Agent?
      case Finished => true
  }

  predicate AtWork(pc: Pc, r: nat) {
    pc != Main && pc.r == r
  }

  /** Its command is queued or being carried out. */
  predicate Served(s: State, r: nat) {
    r in s.queue || AtWork(s.pc, r)
  }

  /** If `r` waits for a reply, the worker will get to it. */
  predicate Tended(s: State, r: nat) {
    r < |s.requests| ==>
      Shape(s.requests[r]) && (s.requests[r].sent && s.requests[r].reply == Waiting ==> Served(s, r))
  }

  // ---- Handlers ----

  /** Request `x` becomes `q`, and nothing else that matters to `r` changes. */
  lemma PutTends(s: State, t: State, x: nat, q: Request, r: nat)
    requires Tended(s, r) && x < |s.requests| && t.requests == s.requests[x := q] && t.queue == s.queue && t.pc == s.pc
    requires Shape(s.requests[x]) ==> Shape(q)
    requires q.sent == s.requests[x].sent && q.reply == s.requests[x].reply
    ensures Tended(t, r)
  {
    hide Shape;
  }

  lemma WindowTends(s: State, x: nat, r: nat)
    requires x < |s.requests| && Tended(s, r)
    ensures Tended(CheckWindowStep(s, x, s.requests[x]), r)
  {
    var t := CheckWindowStep(s, x, s.requests[x]);
    hide Admits, Tended;
    if t != s {
      PutTends(s, t, x, t.requests[x], r);
    }
  }

  lemma ClaimTends(s: State, x: nat, r: nat)
    requires x < |s.requests| && Tended(s, r)
    ensures Tended(ClaimStep(s, x, s.requests[x]), r)
  {
    var t := ClaimStep(s, x, s.requests[x]);
    hide Tended;
    if t != s {
      PutTends(s, t, x, t.requests[x], r);
    }
  }

  lemma EnqueueTends(s: State, x: nat, r: nat)
    requires x < |s.requests| && Tended(s, r)
    ensures Tended(EnqueueStep(s, x, s.requests[x]), r)
  {
  }

  lemma DecidesTends(s: State, x: nat, ok: bool, r: nat)
    requires x < |s.requests| && Tended(s, r) && s.requests[x].kind.Authenticates() && s.requests[x].phase == Racing
    ensures Tended(Decide(s, x, s.requests[x], ok), r)
  {
  }

  lemma DecisionsTend(s: State, x: nat, r: nat)
    requires x < |s.requests| && Tended(s, r)
    ensures Tended(TakeReplyStep(s, x, s.requests[x]), r) && Tended(TakePendingStep(s, x, s.requests[x]), r)
  {
    var q := s.requests[x];
    if q.phase == Racing && q.kind.Authenticates() {
      DecidesTends(s, x, true, r);
      DecidesTends(s, x, false, r);
      hide Decide, Tended;
    } else if TakeReplyStep(s, x, q) != s {
      PutTends(s, TakeReplyStep(s, x, q), x, TakeReplyStep(s, x, q).requests[x], r);
      hide Tended;
    }
  }

  lemma CancelTends(s: State, x: nat, r: nat)
    requires x < |s.requests| && Tended(s, r)
    ensures Tended(CancelStep(s, x, s.requests[x]), r)
  {
    var t := CancelStep(s, x, s.requests[x]);
    if t != s {
      PutTends(s, t, x, t.requests[x], r);
      hide Tended;
    }
  }

  lemma EndingsTend(s: State, x: nat, r: nat)
    requires x < |s.requests| && Tended(s, r)
    ensures Tended(BridgeStep(s, x, s.requests[x]), r) && Tended(AnswerStep(s, x, s.requests[x]), r)
  {
    hide Arm, Tended;
    var bridged, answered := BridgeStep(s, x, s.requests[x]), AnswerStep(s, x, s.requests[x]);
    if bridged != s {
      PutTends(s, bridged, x, bridged.requests[x], r);
    }
    if answered != s {
      PutTends(s, answered, x, answered.requests[x], r);
    }
  }

  lemma ClearTends(s: State, x: nat, r: nat)
    requires x < |s.requests| && Tended(s, r)
    ensures Tended(ClearStep(s, x, s.requests[x]), r)
  {
    if s.requests[x].phase.Decided? {
      var q := s.requests[x].(phase := Cleared(s.requests[x].phase.ok));
      var cleared, t := Put(s, x, q), ClearStep(s, x, s.requests[x]);
      PutTends(s, cleared, x, q, r);
      if t.requests != cleared.requests {
        var victim := s.coord.pendingPam.value;
        PutTends(cleared, t, victim, t.requests[victim], r);
      }
      hide Tended;
    }
  }

  lemma HandlersTend(s: State, a: Action, r: nat)
    requires IsHandler(a) && Tended(s, r)
    ensures Tended(HandlerStep(s, a), r)
  {
    hide Tended, CheckWindowStep, ClaimStep, EnqueueStep, TakeReplyStep, TakePendingStep, CancelStep, ClearStep, BridgeStep, AnswerStep;
    if a.r < |s.requests| {
      WindowTends(s, a.r, r);
      ClaimTends(s, a.r, r);
      EnqueueTends(s, a.r, r);
      DecisionsTend(s, a.r, r);
      CancelTends(s, a.r, r);
      ClearTends(s, a.r, r);
      EndingsTend(s, a.r, r);
    }
  }

  // ---- The worker ----

  /** Where the worker goes, its request is the same or has its reply. */
  lemma ReturnTends(s: State, x: nat, ok: bool, r: nat)
    requires Tended(s, r) || (r < |s.requests| && r == x && Shape(s.requests[r]))
    requires s.pc == Main || s.pc.r == x
    ensures Tended(Return(s, x, ok), r)
  {
    hide Shape;
    if r < |s.requests| {
      ShapeWithReply(s.requests[r], ok);
    }
  }

  lemma ShapeWithReply(q: Request, ok: bool)
    requires Shape(q)
    ensures Shape(q.(reply := Got(ok)))
  {
  }

  lemma ReturnsTend(s: State, x: nat, ok: bool, r: nat)
    requires Tended(s, r) || (r < |s.requests| && r == x && Shape(s.requests[r]))
    requires s.pc == Main || s.pc.r == x
    ensures Tended(ReturnPairing(s, x, ok), r) && Tended(CloseAuth(s, x, ok), r) && Tended(CloseGate(s, x, ok), r)
  {
    hide Return, Shape;
    ReturnTends(s.(coord := s.coord.(progress := if ok then Done else Failed)), x, ok, r);
    ReturnTends(s.(link := s.link.(authPending := false, auth := s.link.auth.Drop())), x, ok, r);
    ReturnTends(s.(link := s.link.(gatePending := false, gate := s.link.gate.Drop()), coord := s.coord.(gateActive := false)), x, ok, r);
  }

  /** The command of `x` goes out, or fails to. */
  lemma TransmitTends(s: State, x: nat, written: bool, r: nat)
    requires Tended(s, r) || (r < |s.requests| && r == x && Shape(s.requests[r]))
    requires s.pc == Main || s.pc.r == x
    ensures Tended(Transmit(s, x, written), r)
  {
    var armed := s.(link := s.link.(response := Oneshot(true, Waiting)));
    ReturnTends(armed, x, false, r);
    ReturnsTend(armed, x, false, r);
    hide Return, ReturnPairing, Shape;
  }

  lemma AnsweredTends(s: State, x: nat, answer: Bytes, r: nat)
    requires Tended(s, r) && s.pc == CommandWait(x)
    ensures Tended(Answered(s, x, answer), r)
  {
    ReturnTends(s, x, true, r);
    ReturnTends(s, x, false, r);
    hide Return, Shape;
  }

  lemma ResolveTends(s: State, r: nat)
    requires Tended(s, r)
    ensures Tended(ResolveStep(s), r)
  {
    hide Answered, CloseAuth, CloseGate, Tended;
    match s.pc
    case CommandWait(x) =>
      if s.link.response.rx.Got? {
        AnsweredTends(s, x, s.link.response.rx.value, r);
      }
    case AuthWait(x) =>
      if s.link.auth.rx.Got? {
        ReturnsTend(s, x, s.link.auth.rx.value, r);
      }
    case GateWait(x) =>
      if s.link.gate.rx.Got? {
        ReturnsTend(s, x, s.link.gate.rx.value.passed, r);
      }
    case _ =>
  }

  lemma CloseTends(s: State, r: nat)
    requires Tended(s, r)
    ensures Tended(CloseStep(s), r)
  {
    if s.pc.AuthClosing? || s.pc.GateClosing? {
      ReturnsTend(s, s.pc.r, false, r);
      hide CloseAuth, CloseGate, Tended;
    }
  }

  lemma ExpireTends(s: State, r: nat)
    requires Tended(s, r)
    ensures Tended(ExpireStep(s), r)
  {
    if InPairing(s) {
      var ended := EndPairWaits(s).(link := EndPairWaits(s).link.(response := s.link.response.Drop()));
      ReturnsTend(ended, s.pc.r, false, r);
      hide ReturnPairing, Tended, EndPairWaits, InPairing;
    } else if s.pc.CommandWait? {
      var dropped := s.(link := s.link.(response := s.link.response.Drop()));
      ReturnTends(dropped, s.pc.r, false, r);
      hide Return, Tended, InPairing;
    } else if s.pc.AuthWait? || s.pc.GateWait? {
      ReturnsTend(s, s.pc.r, false, r);
      hide CloseAuth, CloseGate, Tended, InPairing;
    }
  }

  lemma PairingTends(s: State, written: bool, ok: bool, r: nat)
    requires Tended(s, r)
    ensures Tended(PairAgainStep(s, written), r) && Tended(PairEndStep(s, ok), r)
  {
    if InPairing(s) {
      TransmitTends(EndPairWaits(s), s.pc.r, written, r);
      ReturnsTend(EndPairWaits(s), s.pc.r, ok, r);
      hide Transmit, ReturnPairing;
    }
  }

  lemma FetchTends(s: State, written: bool, r: nat)
    requires Tended(s, r)
    ensures Tended(FetchStep(s, written), r)
  {
    if s.pc == Main && s.call == Free && s.queue != [] {
      var x, rest := s.queue[0], s.(queue := s.queue[1..]);
      assert forall i :: i in s.queue ==> i == x || i in rest.queue;
      TransmitTends(rest, x, written, r);
      hide Transmit, Shape;
    }
  }

  /** Steps that leave requests and queue as they are, and the worker with its request. */
  lemma WaitsTend(s: State, a: Action, r: nat)
    requires Tended(s, r) && (a.CancelGate? || a.Deliver? || a.SeeCancel? || a.Disconnect? || a.PairButton? || a.PairFp?)
    ensures Tended(WorkerStep(s, a), r)
  {
    hide Route, CallFor, ProgressAfter, Quiet, Shape, EndPairWaits;
  }

  lemma ProceedTends(s: State, ok: bool, r: nat)
    requires Tended(s, r)
    ensures Tended(ProceedStep(s, ok), r)
  {
    hide Arm, MayLock;
    if s.call == Approving && s.coord.pendingPam.Some? && s.coord.pendingPam.value < |s.requests| {
      var x := s.coord.pendingPam.value;
      PutTends(s, ProceedStep(s, ok), x, s.requests[x].(pending := Got(true)), r);
      hide Tended;
    } else {
      hide Shape;
    }
  }

  lemma WorkerTends(s: State, a: Action, r: nat)
    requires Tended(s, r) && !IsHandler(a) && !(a.Tick? || a.Screen? || a.Settings? || a.Arrive?)
    ensures Tended(WorkerStep(s, a), r)
  {
    if a.CancelGate? || a.Deliver? || a.SeeCancel? || a.Disconnect? || a.PairButton? || a.PairFp? {
      WaitsTend(s, a, r);
    } else {
      hide Tended, FetchStep, ResolveStep, CloseStep, ExpireStep, PairAgainStep, PairEndStep, ProceedStep;
      match a
      case Fetch(written) => FetchTends(s, written, r);
      case Resolve => ResolveTends(s, r);
      case Close => CloseTends(s, r);
      case Expire => ExpireTends(s, r);
      case PairAgain(written) => PairingTends(s, written, true, r);
      case PairEnd(ok) => PairingTends(s, true, ok, r);
      case Proceed(ok) => ProceedTends(s, ok, r);
    }
  }

  lemma {:induction false} RunTends(actions: seq<Action>, r: nat)
    ensures Tended(Run(actions), r)
  {
    if actions != [] {
      var s, a := Run(actions[..|actions| - 1]), actions[|actions| - 1];
      RunTends(actions[..|actions| - 1], r);
      if IsHandler(a) {
        hide HandlerStep, Tended;
        HandlersTend(s, a, r);
      } else if !(a.Tick? || a.Screen? || a.Settings? || a.Arrive?) {
        hide WorkerStep, Tended;
        WorkerTends(s, a, r);
      }
    }
  }

  lemma ReachedTends(s: State, r: nat)
    requires Reachable(s)
    ensures Tended(s, r)
  {
    var actions :| Run(actions) == s;
    RunTends(actions, r);
  }

  // ---- To the end ----

  predicate In(s: State, r: nat, phase: Phase) {
    r < |s.requests| && s.requests[r].phase == phase
  }

  /** Neither waiting to start nor racing: its handler is on its way out. */
  predicate Leaving(s: State, r: nat) {
    r < |s.requests| && match s.requests[r].phase
      case Fresh => false
      case Unwindowed => false
      case Racing => false
      case _ => true
  }

  lemma WindowStarts(s: State, r: nat)
    requires In(s, r, Fresh) && s.requests[r].kind.Pam?
    ensures In(Next(s, CheckWindow(r)), r, Unwindowed) || In(Next(s, CheckWindow(r)), r, Finished)
  {
    hide Admits;
  }

  lemma ClaimStarts(s: State, r: nat)
    requires In(s, r, if r < |s.requests| && s.requests[r].kind.Pam? then Unwindowed else Fresh)
    requires s.requests[r].kind.Claims()
    ensures In(Next(s, Claim(r)), r, Racing) || In(Next(s, Claim(r)), r, Finished)
  {
  }

  lemma EnqueueStarts(s: State, r: nat)
    requires In(s, r, Fresh) && (s.requests[r].kind.Plain? || s.requests[r].kind.Pairing?) && !s.requests[r].sent
    ensures In(Next(s, Enqueue(r)), r, Racing) || In(Next(s, Enqueue(r)), r, Finished)
  {
  }

  /** The handler gets as far as racing for its reply, or is turned away. */
  lemma Starts(from: State, s: State, r: nat) returns (t: State)
    requires Leads(from, s) && r < |s.requests| && Tended(s, r)
    ensures Leads(from, t) && (In(t, r, Racing) || Leaving(t, r))
  {
    t := s;
    var kind := s.requests[r].kind;
    if s.requests[r].phase == Fresh && kind.Pam? {
      WindowStarts(s, r);
      t := Next(s, CheckWindow(r));
      LeadsNext(from, s, CheckWindow(r), t);
      if In(t, r, Unwindowed) {
        KindStays(s, r);
        ClaimStarts(t, r);
        var claimed := Next(t, Claim(r));
        LeadsNext(from, t, Claim(r), claimed);
        t := claimed;
      }
    } else if s.requests[r].phase == Unwindowed || (s.requests[r].phase == Fresh && kind.Claims()) {
      ClaimStarts(s, r);
      t := Next(s, Claim(r));
      LeadsNext(from, s, Claim(r), t);
    } else if s.requests[r].phase == Fresh {
      EnqueueStarts(s, r);
      t := Next(s, Enqueue(r));
      LeadsNext(from, s, Enqueue(r), t);
    }
    hide Leads, Next;
  }

  lemma KindStays(s: State, r: nat)
    requires r < |s.requests|
    ensures var t := Next(s, CheckWindow(r)); r < |t.requests| && t.requests[r].kind == s.requests[r].kind
  {
    hide Admits;
  }

  lemma EnqueueSends(s: State, r: nat)
    requires In(s, r, Racing) && Shape(s.requests[r])
    ensures var t := Next(s, Enqueue(r)); In(t, r, Racing) && t.requests[r].sent
  {
  }

  lemma ReplyTaken(s: State, r: nat)
    requires In(s, r, Racing) && s.requests[r].reply.Got?
    ensures Leaving(Next(s, TakeReply(r)), r)
  {
  }

  /** A racing handler gets its reply, once the worker has worked off all that came before. */
  lemma Replies(from: State, s: State, r: nat) returns (t: State)
    requires Reachable(from) && Leads(from, s) && In(s, r, Racing) && Tended(s, r)
    ensures Leads(from, t) && Leaving(t, r)
  {
    EnqueueSends(s, r);
    var sent := Next(s, Enqueue(r));
    LeadsNext(from, s, Enqueue(r), sent);
    hide Next, Leads;
    var idle := Idles(from, sent);
    assert Stays(sent.requests[r], idle.requests[r]);
    ReachLeads(from, idle);
    ReachedTends(idle, r);
    assert !Served(idle, r);
    ReplyTaken(idle, r);
    t := Next(idle, TakeReply(r));
    LeadsNext(from, idle, TakeReply(r), t);
  }

  lemma ClearLeaves(s: State, r: nat, ok: bool)
    requires In(s, r, Decided(ok)) && Shape(s.requests[r])
    ensures In(Next(s, Clear(r)), r, Cleared(ok)) && Shape(Next(s, Clear(r)).requests[r])
  {
  }

  lemma BridgeLeaves(s: State, r: nat)
    requires In(s, r, Cleared(true)) && s.requests[r].kind.Agent?
    ensures In(Next(s, Bridge(r)), r, Bridged) && Next(s, Bridge(r)).requests[r].kind.Agent?
  {
    hide Arm;
  }

  lemma AnswerEnds(s: State, r: nat)
    requires r < |s.requests| && Shape(s.requests[r])
    requires In(s, r, Cleared(false)) || (In(s, r, Cleared(true)) && !s.requests[r].kind.Agent?) || In(s, r, Bridged)
    ensures In(Next(s, Answer(r)), r, Finished)
  {
  }

  lemma ClearedEnds(from: State, s: State, r: nat, ok: bool) returns (t: State)
    requires Leads(from, s) && In(s, r, Cleared(ok)) && Shape(s.requests[r])
    ensures Leads(from, t) && In(t, r, Finished)
  {
    hide Leads, Next;
    var ready := s;
    if ok && s.requests[r].kind.Agent? {
      BridgeLeaves(s, r);
      BridgeShape(s, r);
      ready := Next(s, Bridge(r));
      LeadsNext(from, s, Bridge(r), ready);
    }
    AnswerEnds(ready, r);
    t := Next(ready, Answer(r));
    LeadsNext(from, ready, Answer(r), t);
  }

  lemma BridgeShape(s: State, r: nat)
    requires In(s, r, Cleared(true)) && s.requests[r].kind.Agent? && Shape(s.requests[r])
    ensures var t := Next(s, Bridge(r)); r < |t.requests| && Shape(t.requests[r])
  {
    hide Arm;
  }

  /** A handler on its way out clears the slot, arms the window if it is to, and answers. */
  lemma Leaves(from: State, s: State, r: nat) returns (t: State)
    requires Leads(from, s) && Leaving(s, r) && Shape(s.requests[r])
    ensures Leads(from, t) && In(t, r, Finished)
  {
    hide Leads, Next;
    match s.requests[r].phase
    case Decided(ok) =>
      ClearLeaves(s, r, ok);
      var cleared := Next(s, Clear(r));
      LeadsNext(from, s, Clear(r), cleared);
      t := ClearedEnds(from, cleared, r, ok);
    case Cleared(ok) =>
      t := ClearedEnds(from, s, r, ok);
    case Bridged =>
      AnswerEnds(s, r);
      t := Next(s, Answer(r));
      LeadsNext(from, s, Answer(r), t);
    case _ =>
      t := s;
  }

  /**
   * From every reachable state, with no cancel in between, every request can be brought to its end: no handler waits for a
   * reply that will not come, and the worker always finds its way back to the queue.
   */
  lemma NoRequestIsStuck(actions: seq<Action>, r: nat)
    requires r < |Run(actions).requests|
    ensures exists t :: Leads(Run(actions), t) && In(t, r, Finished)
  {
    var s := Run(actions);
    RunTends(actions, r);
    assert Reachable(s);
    LeadsSelf(s);
    hide Run, Leads, Reachable;
    var started := Starts(s, s, r);
    ReachLeads(s, started);
    ReachedTends(started, r);
    var leaving := started;
    if In(started, r, Racing) {
      leaving := Replies(s, started, r);
      ReachLeads(s, leaving);
      ReachedTends(leaving, r);
    }
    var t := Leaves(s, leaving, r);
  }
}
