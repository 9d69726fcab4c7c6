/** In every run: who may change the pairing progress, and when a second start is turned away. */
module DaemonPairing {
  import opened Wire
  import opened Link
  import opened Coordinator
  import opened Daemon
  import opened DaemonRuns
  import Waits = DaemonWaits

  predicate IsPairing(s: State, r: nat) {
    r < |s.requests| && s.requests[r].kind.Pairing?
  }

  /** Progress is in flight through every button wait, and only while the worker carries out a pairing. */
  predicate Inv(s: State) {
    && (s.pc.ButtonWait? ==> s.coord.progress.InFlight()) && (s.coord.progress.InFlight() ==> InPairing(s))
    && (s.pc.ButtonWait? || s.pc.PairFpWait? ==> IsPairing(s, s.pc.r))
  }

  /** The pairing command's own steps, and the frames that reach it. */
  predicate OwnStep(s: State, a: Action) {
    a.PairButton? || a.PairAgain? || a.PairEnd? || a.Expire? || (a.Deliver? && s.pc.ButtonWait?)
  }

  /** From `s` to `t` the worker stayed where it was; a progress that changed was not in flight and was reset. */
  predicate Apart(s: State, t: State) {
    && t.pc == s.pc && SameKinds(s, t)
    && (t.coord.progress == s.coord.progress || (!s.coord.progress.InFlight() && t.coord.progress == Idle))
  }

  lemma ApartKeeps(s: State, t: State)
    requires Inv(s) && Apart(s, t)
    ensures Inv(t)
  {
  }

  lemma SameApart(s: State, t: State)
    requires t.pc == s.pc && t.requests == s.requests && t.coord.progress == s.coord.progress
    ensures Apart(s, t)
  {
  }

  lemma PutApart(s: State, t: State, r: nat, q: Request)
    requires r < |s.requests| && q.kind == s.requests[r].kind && t.pc == s.pc && t.requests == Put(s, r, q).requests
    requires t.coord.progress == s.coord.progress || (!s.coord.progress.InFlight() && t.coord.progress == Idle)
    ensures Apart(s, t)
  {
  }

  lemma ClaimsApart(s: State, r: nat, q: Request)
    requires r < |s.requests| && q == s.requests[r]
    ensures Apart(s, CheckWindowStep(s, r, q)) && Apart(s, ClaimStep(s, r, q))
  {
    hide Apart, Admits;
    SameApart(s, s);
    PutApart(s, Put(s, r, q.(phase := Unwindowed)), r, q.(phase := Unwindowed));
    if q.kind.Pam? {
      PutApart(s, Log(Put(s, r, q.(phase := Finished)), Windowed(r, q.kind.service, s.now)), r, q.(phase := Finished));
    }
    if s.coord.pendingPam.Some? {
      PutApart(s, Put(s, r, q.(phase := Finished)), r, q.(phase := Finished));
    } else if ClaimStep(s, r, q) != s {
      PutApart(s, ClaimStep(s, r, q), r, q.(phase := Racing, pending := Waiting));
    }
  }

  lemma EnqueueApart(s: State, r: nat, q: Request)
    requires r < |s.requests| && q == s.requests[r]
    ensures Apart(s, EnqueueStep(s, r, q))
  {
    hide Apart;
    SameApart(s, s);
    var queued, refused := q.(phase := Racing, sent := true, reply := Waiting), q.(phase := Finished);
    PutApart(s, Put(s, r, refused), r, refused);
    PutApart(s, Put(s, r, queued).(queue := s.queue + [r]), r, queued);
    if !s.coord.progress.InFlight() {
      PutApart(s, Put(s, r, queued).(queue := s.queue + [r], coord := s.coord.(progress := Idle)), r, queued);
    }
  }

  lemma DecideApart(s: State, r: nat, q: Request, ok: bool)
    requires r < |s.requests| && q == s.requests[r]
    ensures Apart(s, Decide(s, r, q, ok))
  {
    hide Apart;
    PutApart(s, Decide(s, r, q, ok), r, q.(phase := Decided(ok)));
  }

  lemma DecisionsApart(s: State, r: nat, q: Request)
    requires r < |s.requests| && q == s.requests[r]
    ensures Apart(s, TakeReplyStep(s, r, q)) && Apart(s, TakePendingStep(s, r, q))
  {
    hide Apart, Decide;
    SameApart(s, s);
    DecideApart(s, r, q, true);
    DecideApart(s, r, q, false);
    PutApart(s, Put(s, r, q.(phase := Decided(false))), r, q.(phase := Decided(false)));
    PutApart(s, Put(s, r, q.(phase := Finished)), r, q.(phase := Finished));
  }

  lemma CancelApart(s: State, r: nat, q: Request)
    requires r < |s.requests| && q == s.requests[r]
    ensures Apart(s, CancelStep(s, r, q))
  {
    hide Apart;
    SameApart(s, s);
    if q.phase == Racing && q.kind.Authenticates() {
      PutApart(s, CancelStep(s, r, q), r, q.(phase := Decided(false)));
    } else if q.phase == Racing && q.kind.Gated? {
      PutApart(s, CancelStep(s, r, q), r, q.(phase := Finished));
    }
  }

  lemma EndingsApart(s: State, r: nat, q: Request)
    requires r < |s.requests| && q == s.requests[r]
    ensures Apart(s, ClearStep(s, r, q)) && Apart(s, BridgeStep(s, r, q)) && Apart(s, AnswerStep(s, r, q))
  {
    hide Arm;
  }

  lemma HandlersApart(s: State, a: Action)
    requires IsHandler(a)
    ensures Apart(s, HandlerStep(s, a))
  {
    hide CheckWindowStep, ClaimStep, EnqueueStep, TakeReplyStep, TakePendingStep, CancelStep, ClearStep, BridgeStep, AnswerStep;
    if a.r < |s.requests| {
      ClaimsApart(s, a.r, s.requests[a.r]);
      EnqueueApart(s, a.r, s.requests[a.r]);
      DecisionsApart(s, a.r, s.requests[a.r]);
      CancelApart(s, a.r, s.requests[a.r]);
      EndingsApart(s, a.r, s.requests[a.r]);
    }
  }

  lemma ApprovingApart(s: State, ok: bool)
    requires s.call == Approving
    ensures Apart(s, ProceedStep(s, ok))
  {
    hide Apart;
    if s.coord.pendingPam.Some? && s.coord.pendingPam.value < |s.requests| {
      var x := s.coord.pendingPam.value;
      PutApart(s, ProceedStep(s, ok), x, s.requests[x].(pending := Got(true)));
    } else {
      SameApart(s, ProceedStep(s, ok));
    }
  }

  lemma ProceedApart(s: State, ok: bool)
    requires s.call != Approving
    ensures Apart(s, ProceedStep(s, ok))
  {
    hide Apart, Arm, MayLock;
    SameApart(s, ProceedStep(s, ok));
  }

  lemma CallsApart(s: State, ok: bool)
    ensures Apart(s, ProceedStep(s, ok)) && Apart(s, CancelGateStep(s)) && Apart(s, DisconnectStep(s))
  {
    hide Apart, Arm, MayLock;
    SameApart(s, CancelGateStep(s));
    SameApart(s, DisconnectStep(s));
    if s.call == Approving {
      ApprovingApart(s, ok);
    } else {
      ProceedApart(s, ok);
    }
  }

  // ---- The worker ----

  /** Frames move the progress only while the button is waited for, and only from one stage in flight to another. */
  lemma NewsNeedsButton(l: Link, f: Frame)
    ensures Route(l, f).effect.PairingAt? ==> l.buttonPending && Route(l, f).effect.progress.InFlight()
  {
    hide LittleEndian;
  }

  /** Where the worker comes to rest with the progress as given. */
  predicate Rests(s: State, t: State, progress: Progress) {
    t.pc == Main && t.coord.progress == progress
  }

  lemma ReturnRests(s: State, r: nat, ok: bool)
    ensures Rests(s, Return(s, r, ok), s.coord.progress)
    ensures Rests(s, ReturnPairing(s, r, ok), if ok then Done else Failed)
  {
  }

  lemma CloseRests(s: State, r: nat, ok: bool)
    ensures Rests(s, CloseAuth(s, r, ok), s.coord.progress) && Rests(s, CloseGate(s, r, ok), s.coord.progress)
  {
    hide Return, ReturnPairing;
    ReturnRests(s.(link := s.link.(authPending := false, auth := s.link.auth.Drop())), r, ok);
    ReturnRests(s.(link := s.link.(gatePending := false, gate := s.link.gate.Drop()), coord := s.coord.(gateActive := false)), r, ok);
  }

  lemma TransmitKeeps(s: State, r: nat, written: bool)
    requires s.coord.progress.InFlight() ==> IsPairing(s, r)
    ensures Inv(Transmit(s, r, written))
  {
    var armed := s.(link := s.link.(response := Oneshot(true, Waiting)));
    ReturnRests(armed, r, false);
    hide Return, ReturnPairing;
  }

  lemma AnsweredKeeps(s: State, r: nat, answer: Bytes)
    requires Inv(s) && s.pc == CommandWait(r)
    ensures var t := Answered(s, r, answer); Inv(t) && t.coord.progress == s.coord.progress
  {
    ReturnRests(s, r, true);
    ReturnRests(s, r, false);
    hide Return, ReturnPairing;
  }

  lemma ResolveKeeps(s: State)
    requires Inv(s)
    ensures var t := ResolveStep(s); Inv(t) && t.coord.progress == s.coord.progress
  {
    hide Answered, CloseAuth, CloseGate;
    match s.pc
    case CommandWait(r) =>
      if s.link.response.rx.Got? {
        AnsweredKeeps(s, r, s.link.response.rx.value);
      }
    case AuthWait(r) =>
      if s.link.auth.rx.Got? {
        CloseRests(s, r, s.link.auth.rx.value);
      }
    case GateWait(r) =>
      if s.link.gate.rx.Got? {
        CloseRests(s, r, s.link.gate.rx.value.passed);
      }
    case _ =>
  }

  lemma SeeCancelKeeps(s: State)
    requires Inv(s)
    ensures var t := SeeCancelStep(s); Inv(t) && t.coord.progress == s.coord.progress
  {
  }

  lemma CloseKeeps(s: State)
    requires Inv(s)
    ensures var t := CloseStep(s); Inv(t) && t.coord.progress == s.coord.progress
  {
    if s.pc.AuthClosing? || s.pc.GateClosing? {
      CloseRests(s, s.pc.r, false);
      hide CloseAuth, CloseGate;
    }
  }

  lemma ExpireKeeps(s: State)
    requires Inv(s)
    ensures Inv(ExpireStep(s))
  {
    if s.pc != Main {
      var r := s.pc.r;
      var dropped := s.(link := s.link.(response := s.link.response.Drop()));
      var ended := EndPairWaits(s).(link := EndPairWaits(s).link.(response := s.link.response.Drop()));
      CloseRests(s, r, false);
      ReturnRests(dropped, r, false);
      ReturnRests(ended, r, false);
      hide Return, ReturnPairing, CloseAuth, CloseGate, EndPairWaits;
    }
  }

  lemma DeliverKeeps(s: State, f: Frame)
    requires Inv(s) && (s.link.buttonPending <==> s.pc.ButtonWait?)
    ensures var t := DeliverStep(s, f);
      Inv(t) && t.pc == s.pc && (!s.pc.ButtonWait? ==> t.coord.progress == s.coord.progress)
  {
    NewsNeedsButton(s.link, f);
    hide Route, CallFor, Quiet;
  }

  lemma PairingKeeps(s: State, written: bool, ok: bool)
    requires Inv(s)
    ensures Inv(PairAgainStep(s, written)) && Inv(PairEndStep(s, ok))
  {
    if InPairing(s) {
      assert IsPairing(s, s.pc.r);
      TransmitKeeps(EndPairWaits(s), s.pc.r, written);
      ReturnRests(EndPairWaits(s), s.pc.r, ok);
      hide Transmit, Return, ReturnPairing;
    }
  }

  lemma PairWaitsKeep(s: State, secondHost: bool)
    requires Inv(s)
    ensures Inv(PairButtonStep(s, secondHost)) && Inv(PairFpStep(s)) && PairFpStep(s).coord.progress == s.coord.progress
  {
  }

  lemma FetchKeeps(s: State, written: bool)
    requires Inv(s)
    ensures var t := FetchStep(s, written); Inv(t) && (s.coord.progress.InFlight() ==> t == s)
  {
    if s.pc == Main && s.call == Free && s.queue != [] {
      TransmitKeeps(s.(queue := s.queue[1..]), s.queue[0], written);
      hide Transmit;
    }
  }

  lemma WorkerKeeps(s: State, a: Action)
    requires !IsHandler(a) && !(a.Tick? || a.Screen? || a.Settings? || a.Arrive?)
    requires Inv(s) && (s.link.buttonPending <==> s.pc.ButtonWait?)
    ensures var t := WorkerStep(s, a);
      Inv(t) && (s.coord.progress.InFlight() && t.coord.progress != s.coord.progress ==> OwnStep(s, a))
  {
    hide FetchStep, DeliverStep, ResolveStep, SeeCancelStep, CloseStep, ExpireStep, DisconnectStep,
         PairAgainStep, PairButtonStep, PairFpStep, PairEndStep, ProceedStep, CancelGateStep, InPairing, IsPairing;
    match a
    case Fetch(written) => FetchKeeps(s, written);
    case Deliver(frame) => DeliverKeeps(s, frame);
    case Resolve => ResolveKeeps(s);
    case SeeCancel => SeeCancelKeeps(s);
    case Close => CloseKeeps(s);
    case Expire => ExpireKeeps(s);
    case PairAgain(written) => PairingKeeps(s, written, true);
    case PairEnd(ok) => PairingKeeps(s, true, ok);
    case PairButton(secondHost) => PairWaitsKeep(s, secondHost);
    case PairFp => PairWaitsKeep(s, true);
    case CancelGate => CallKeeps(s, true);
    case Disconnect => CallKeeps(s, true);
    case Proceed(ok) => CallKeeps(s, ok);
  }

  predicate KeepsInFlight(s: State, t: State) {
    Inv(t) && (s.coord.progress.InFlight() ==> t.coord.progress == s.coord.progress)
  }

  lemma CallKeeps(s: State, ok: bool)
    requires Inv(s)
    ensures KeepsInFlight(s, ProceedStep(s, ok)) && KeepsInFlight(s, CancelGateStep(s)) && KeepsInFlight(s, DisconnectStep(s))
  {
    CallsApart(s, ok);
    ApartKeeps(s, ProceedStep(s, ok));
    ApartKeeps(s, CancelGateStep(s));
    ApartKeeps(s, DisconnectStep(s));
    hide Inv, ProceedStep, CancelGateStep, DisconnectStep;
  }

  lemma StepKeeps(s: State, a: Action)
    requires Inv(s) && (s.link.buttonPending <==> s.pc.ButtonWait?)
    ensures var t := Next(s, a);
      Inv(t) && (s.coord.progress.InFlight() && t.coord.progress != s.coord.progress ==> OwnStep(s, a))
  {
    hide HandlerStep, WorkerStep, OwnStep;
    if a.Tick? || a.Screen? || a.Settings? || a.Arrive? {
      assert Apart(s, Next(s, a));
      ApartKeeps(s, Next(s, a));
    } else if IsHandler(a) {
      HandlersApart(s, a);
      ApartKeeps(s, Next(s, a));
    } else {
      WorkerKeeps(s, a);
    }
  }

  lemma {:induction false} RunKeeps(actions: seq<Action>)
    ensures Inv(Run(actions))
  {
    if actions != [] {
      var s := Run(actions[..|actions| - 1]);
      RunKeeps(actions[..|actions| - 1]);
      Waits.RunKeeps(actions[..|actions| - 1]);
      hide Inv, Next;
      StepKeeps(s, actions[|actions| - 1]);
    }
  }

  /**
   * In every run: through a button wait the progress is in flight; while it is, the worker is carrying out a pairing, and
   * nothing but that pairing's own steps and the frames that reach its button wait change it.
   */
  lemma InFlightIsTheWorkers(actions: seq<Action>, a: Action)
    ensures Run(actions).pc.ButtonWait? ==> Run(actions).coord.progress.InFlight()
    ensures Run(actions).coord.progress.InFlight() ==> InPairing(Run(actions))
    ensures Run(actions).coord.progress.InFlight() && Next(Run(actions), a).coord.progress != Run(actions).coord.progress
      ==> OwnStep(Run(actions), a)
  {
    RunKeeps(actions);
    Waits.RunKeeps(actions);
    hide Next, OwnStep, Run;
    StepKeeps(Run(actions), a);
  }

  predicate Starts(s: State, r: nat) {
    IsPairing(s, r) && s.requests[r].phase == Fresh && !s.requests[r].sent
  }

  /** A PAIR:START is refused: it is not queued, and the attempt in flight keeps its progress. */
  predicate Refused(s: State, r: nat)
    requires Starts(s, r)
  {
    var t := Next(s, Enqueue(r));
    t.queue == s.queue && t.coord == s.coord && t.requests == s.requests[r := s.requests[r].(phase := Finished)]
  }

  /**
   * In every run a PAIR:START is refused if and only if the progress is in flight, in particular through every button wait,
   * and only while the worker is carrying out a pairing; otherwise it is queued and the progress reset.
   */
  lemma SecondStartIsRefused(actions: seq<Action>, r: nat)
    requires Starts(Run(actions), r)
    ensures var s := Run(actions);
      && (Refused(s, r) <==> s.coord.progress.InFlight())
      && (s.pc.ButtonWait? ==> Refused(s, r)) && (Refused(s, r) ==> InPairing(s))
      && (!Refused(s, r) ==> Next(s, Enqueue(r)).queue == s.queue + [r] && Next(s, Enqueue(r)).coord.progress == Idle)
  {
    var s := Run(actions);
    RunKeeps(actions);
    hide Run, InPairing;
    assert !s.coord.progress.InFlight() ==> Next(s, Enqueue(r)).queue == s.queue + [r];
  }

  /**
   * The claim leaves the progress idle until the device asks for its button: a second start in between is not refused,
   * and both pairings are queued.
   */
  lemma TwoStartsAreQueued()
    ensures exists s :: Reachable(s) && s.queue == [0, 1] && IsPairing(s, 0) && IsPairing(s, 1)
  {
    StartReachable();
    hide Reachable;
    var arrived, queued := Request(Pairing, Fresh, false, Dropped, Dropped), Request(Pairing, Racing, true, Dropped, Waiting);
    var s1 := START.(requests := [arrived]);
    ReachNext(START, Arrive(Pairing), s1);
    var s2 := START.(requests := [queued], queue := [0]);
    ReachNext(s1, Enqueue(0), s2);
    var s3 := s2.(requests := [queued, arrived]);
    assert s3.requests == s2.requests + [arrived];
    ReachNext(s2, Arrive(Pairing), s3);
    var s4 := s3.(requests := [queued, queued], queue := [0, 1]);
    assert s4.requests == s3.requests[1 := queued] && s3.queue + [1] == [0, 1];
    assert Next(s3, Enqueue(1)) == s4;
    hide Next;
    ReachNext(s3, Enqueue(1), s4);
  }

  // ---- What is shown ----

  lemma NewsOfButton(s: State, status: byte)
    requires s.pc.ButtonWait? && s.call == Free && s.link.buttonPending
    ensures var t := Next(s, Deliver(Frame([0x34, status], false)));
      && t.pc == s.pc && t.requests == s.requests
      && t.coord.progress == if status == 1 then Ecdh else if status == 3 then WaitButton else s.coord.progress
  {
    EffectMeans(s.link, Frame([0x34, status], false));
    hide Route, Quiet;
  }

  /** During a button wait the progress shown follows the device's reports: the press, or the finger that must come before it. */
  lemma ButtonIsShown(actions: seq<Action>, status: byte)
    requires Run(actions).pc.ButtonWait? && Run(actions).call == Free
    ensures var s, t := Run(actions), Next(Run(actions), Deliver(Frame([0x34, status], false)));
      && t.pc == s.pc && t.requests == s.requests
      && t.coord.progress == if status == 1 then Ecdh else if status == 3 then WaitButton else s.coord.progress
  {
    Waits.RunKeeps(actions);
    hide Run, Next;
    NewsOfButton(Run(actions), status);
  }

  /** A device that asks for its button is shown waiting for it; a second host is told to touch first. */
  lemma ButtonIsAsked(s: State, r: nat, secondHost: bool)
    requires s.pc == CommandWait(r) && s.call == Free && IsPairing(s, r)
    ensures var t := Next(s, PairButton(secondHost));
      && t.pc == ButtonWait(r) && t.link.buttonPending && t.coord.progress == if secondHost then WaitFp else WaitButton
  {
  }

  /** Old firmware asks for a finger instead: the pairing gate opens, again after every mismatch. */
  lemma FingerIsAsked(s: State, r: nat)
    requires (s.pc == CommandWait(r) || s.pc == PairFpWait(r)) && s.call == Free && IsPairing(s, r)
    ensures var t := Next(s, PairFp);
      t.pc == PairFpWait(r) && t.link.pairFpGate && t.link.response == Oneshot(true, Waiting) && t.coord == s.coord
  {
  }

  /** The next command of a pairing goes out with no wait of the last one left open. */
  lemma NextCommandIsSent(s: State, r: nat)
    requires (s.pc == CommandWait(r) || s.pc == ButtonWait(r) || s.pc == PairFpWait(r)) && s.call == Free && IsPairing(s, r)
    ensures var t := Next(s, PairAgain(true));
      && t.pc == CommandWait(r) && t.log == s.log + [Sent(r)] && t.link.response == Oneshot(true, Waiting)
      && !t.link.pairFpGate && !t.link.buttonPending && !t.link.button.armed && t.coord == s.coord
  {
  }

  lemma ReturnShows(s: State, r: nat, ok: bool)
    requires r < |s.requests|
    ensures var t := ReturnPairing(s, r, ok);
      && t.pc == Main && t.coord.progress == (if ok then Done else Failed) && t.log == s.log + [Replied(r, ok)] && t.link == s.link
      && t.requests == s.requests[r := s.requests[r].(reply := Got(ok))]
  {
  }

  /** However a pairing ends, its progress says how, and so does the reply. */
  lemma EndIsShown(s: State, r: nat, ok: bool)
    requires (s.pc == CommandWait(r) || s.pc == ButtonWait(r) || s.pc == PairFpWait(r)) && s.call == Free && IsPairing(s, r)
    ensures var t := Next(s, PairEnd(ok));
      && t.pc == Main && t.coord.progress == (if ok then Done else Failed) && t.log == s.log + [Replied(r, ok)]
      && t.requests == s.requests[r := s.requests[r].(reply := Got(ok))] && !t.link.buttonPending && !t.link.pairFpGate
  {
    assert Next(s, PairEnd(ok)) == ReturnPairing(EndPairWaits(s), r, ok);
    hide Next, ReturnPairing;
    ReturnShows(EndPairWaits(s), r, ok);
  }

  /** A pairing that runs into a deadline has failed. */
  lemma DeadlineIsShown(s: State, r: nat)
    requires (s.pc == CommandWait(r) || s.pc == ButtonWait(r) || s.pc == PairFpWait(r)) && s.call == Free && IsPairing(s, r)
    ensures var t := Next(s, Expire);
      t.pc == Main && t.coord.progress == Failed && t.log == s.log + [Replied(r, false)] && !t.link.buttonPending && !t.link.pairFpGate
  {
    var ended := EndPairWaits(s).(link := EndPairWaits(s).link.(response := s.link.response.Drop()));
    assert Next(s, Expire) == ReturnPairing(ended, r, false);
    hide Next, ReturnPairing;
    ReturnShows(ended, r, false);
  }
}
