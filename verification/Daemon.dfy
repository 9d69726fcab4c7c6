/**
 * The daemon as a step machine: the single BLE worker, the request handlers that race with it
 * (`socket.rs`, `ssh_agent.rs`), device notifications, cancels, timers and disconnects.
 */
module Daemon {
  import opened Wire
  import opened Link
  import opened Coordinator

  /**
   * What a client asked for: a PAM or agent authentication; a secret read behind a fingerprint gate, which holds the
   * pending slot meanwhile; any other gated command; any other command; a pairing.
   */
  datatype Kind = Pam(service: string) | Agent | Secret | Gated | Plain | Pairing {
    /** Whether the handler races the pending slot against an AUTH_REQUEST. */
    predicate Authenticates() {
      Pam? || Agent?
    }

    predicate Claims() {
      Authenticates() || Secret?
    }
  }

  datatype Phase = Fresh | Unwindowed | Racing | Decided(ok: bool) | Cleared(ok: bool) | Bridged | Finished

  /** A handler; `pending` is its end of the slot's channel, `reply` its end of the worker's. */
  datatype Request = Request(kind: Kind, phase: Phase, sent: bool, pending: Receiver<bool>, reply: Receiver<bool>)

  /** Where the worker is; the request is the one whose command it carries out. */
  datatype Pc =
    | Main
    | CommandWait(r: nat)
    | AuthWait(r: nat) | AuthClosing(r: nat)
    | GateWait(r: nat) | GateClosing(r: nat)
    | ButtonWait(r: nat) | PairFpWait(r: nat)

  /** How far the worker is inside a coordinator call made while routing a notification. */
  datatype Call = Free | Approving | Stamping | Following | CheckingUnlock | Unlocking | CheckingLock | Clearing

  datatype Event =
    | Sent(r: nat)                                  // the worker put r's command on the wire
    | Received(frame: Frame, quiet: bool)           // quiet: no gate, authentication or pairing gate was open
    | SlotApproved(r: nat) | SlotDenied(r: nat, clearer: nat)
    | Replied(r: nat, ok: bool)                     // the worker's answer to r
    | Accepted(r: nat, kind: Kind)                  // the handler decided for r
    | Approved(r: nat, kind: Kind)                  // OK:AUTHENTICATED or OK:APPROVED
    | Windowed(r: nat, service: string, at: nat)    // OK:PRE_AUTH
    | WindowArmed(window: PreAuth, at: nat, agent: Option<nat>)
    | WindowCleared
    | Notified(checked: bool)                       // `gate_cancel.notify_one()`
    | GateOpened(r: nat) | GateKilled(r: nat) | GateClosed(r: nat)
    | DialogNotified(r: nat)                        // r's handler calls `auth_dialog_cancel.notify_one()`
    | AuthOpened(r: nat) | AuthKilled(r: nat)

  /** `since` is the index of the event that began the worker's command or authentication wait. */
  datatype State = State(
    now: nat, locked: bool, unlockEnabled: bool, lockEnabled: bool,
    coord: Coord, link: Link, pc: Pc, since: nat, call: Call,
    queue: seq<nat>, requests: seq<Request>, log: seq<Event>)

  datatype Action =
    // the world
    | Tick(ms: nat) | Screen(isLocked: bool) | Settings(unlock: bool, lock: bool) | Arrive(kind: Kind)
    // a handler's steps
    | CheckWindow(r: nat) | Claim(r: nat) | Enqueue(r: nat) | TakeReply(r: nat) | TakePending(r: nat)
    | Cancel(r: nat) | Clear(r: nat) | Bridge(r: nat) | Answer(r: nat)
    | CancelGate                                    // GATE:CANCEL and FP:ENROLL_CANCEL
    // the worker's steps
    | Fetch(written: bool) | Deliver(frame: Frame) | Resolve | SeeCancel | Close | Expire | Disconnect
    | PairAgain(written: bool) | PairButton(secondHost: bool) | PairFp | PairEnd(ok: bool)
    | Proceed(ok: bool)

  const NO_WAIT: Link := Link(Oneshot(false, Dropped), false, Oneshot(false, Dropped), false, Oneshot(false, Dropped),
                              0, false, false, Oneshot(false, Dropped), false)

  const START: State := State(0, false, false, false, Coord(None, None, None, Idle, false, false, false),
                              NO_WAIT, Main, 0, Free, [], [], [])

  function Log(s: State, e: Event): State {
    s.(log := s.log + [e])
  }

  function Put(s: State, r: nat, q: Request): State
    requires r < |s.requests|
  {
    s.(requests := s.requests[r := q])
  }

  // ---- Handlers ----

  function CheckWindowStep(s: State, r: nat, q: Request): State
    requires r < |s.requests|
  {
    if !(q.kind.Pam? && q.phase == Fresh) then s
    else if Admits(s.coord.preAuth, s.now, q.kind.service) then
      Log(Put(s, r, q.(phase := Finished)), Windowed(r, q.kind.service, s.now))
    else Put(s, r, q.(phase := Unwindowed))
  }

  function ClaimStep(s: State, r: nat, q: Request): State
    requires r < |s.requests|
  {
    if !((q.kind.Pam? && q.phase == Unwindowed) || ((q.kind.Agent? || q.kind.Secret?) && q.phase == Fresh)) then s
    else if s.coord.pendingPam.Some? then Put(s, r, q.(phase := Finished))
    else Put(s, r, q.(phase := Racing, pending := Waiting)).(coord := s.coord.(pendingPam := Some(r)))
  }

  function EnqueueStep(s: State, r: nat, q: Request): State
    requires r < |s.requests|
  {
    var queued := Put(s, r, q.(phase := Racing, sent := true, reply := Waiting)).(queue := s.queue + [r]);
    if q.sent then s
    else if q.kind.Claims() || q.kind.Gated? then if q.phase == Racing then queued else s
    else if q.phase != Fresh then s
    else if !q.kind.Pairing? then queued
    else if s.coord.progress.InFlight() then Put(s, r, q.(phase := Finished))
    else queued.(coord := s.coord.(progress := Idle))
  }

  function Decide(s: State, r: nat, q: Request, ok: bool): State
    requires r < |s.requests|
  {
    var decided := Put(s, r, q.(phase := Decided(ok)));
    if ok then Log(decided, Accepted(r, q.kind)) else decided
  }

  function TakeReplyStep(s: State, r: nat, q: Request): State
    requires r < |s.requests|
  {
    if !(q.phase == Racing && q.reply.Got?) then s
    else if q.kind.Authenticates() then Decide(s, r, q, q.reply.value)
    else if q.kind.Secret? then Put(s, r, q.(phase := Decided(false)))   // it has its reply; the slot is left to clear
    else Put(s, r, q.(phase := Finished))
  }

  function TakePendingStep(s: State, r: nat, q: Request): State
    requires r < |s.requests|
  {
    if q.kind.Authenticates() && q.phase == Racing && q.pending.Got? then Decide(s, r, q, q.pending.value) else s
  }

  /** The client went away, the dialog was dismissed, or the handler's own timer fired. */
  function CancelStep(s: State, r: nat, q: Request): State
    requires r < |s.requests|
  {
    if q.phase != Racing then s
    else if q.kind.Authenticates() then
      Log(Decide(s, r, q, false), DialogNotified(r)).(coord := s.coord.(authPermit := true))
    else if q.kind.Gated? then
      Log(Put(s, r, q.(phase := Finished)), Notified(false)).(coord := s.coord.(gatePermit := true))
    else s
  }

  /** `deny_pending_pam` takes whatever sender is in the slot by now. */
  function ClearStep(s: State, r: nat, q: Request): State
    requires r < |s.requests|
  {
    if !q.phase.Decided? then s
    else
      var cleared := Put(s, r, q.(phase := Cleared(q.phase.ok)));
      match s.coord.pendingPam
      case Some(x) =>
        if x < |s.requests| then
          Log(Put(cleared, x, cleared.requests[x].(pending := Got(false))), SlotDenied(x, r)).(coord := s.coord.(pendingPam := None))
        else cleared
      case None => cleared
  }

  function BridgeStep(s: State, r: nat, q: Request): State
    requires r < |s.requests|
  {
    if !(q.kind.Agent? && q.phase == Cleared(true)) then s
    else ArmWindow(Put(s, r, q.(phase := Bridged)), SUDO_WINDOW, SUDO_SERVICES, Some(r))
  }

  function ArmWindow(s: State, duration: nat, services: set<string>, agent: Option<nat>): State {
    var window := Arm(s.now, duration, services);
    Log(s, WindowArmed(window, s.now, agent)).(coord := s.coord.(preAuth := Some(window)))
  }

  function AnswerStep(s: State, r: nat, q: Request): State
    requires r < |s.requests|
  {
    var done := Put(s, r, q.(phase := Finished));
    if q.kind.Pam? && q.phase == Cleared(true) then Log(done, Approved(r, q.kind))
    else if q.kind.Agent? && q.phase == Bridged then Log(done, Approved(r, q.kind))
    else if q.phase == Cleared(false) then done
    else s
  }

  function CancelGateStep(s: State): State {
    if s.coord.gateActive then Log(s, Notified(true)).(coord := s.coord.(gatePermit := true)) else s
  }

  // ---- The worker ----

  function Return(s: State, r: nat, ok: bool): State {
    var back := Log(s.(pc := Main), Replied(r, ok));
    if r < |s.requests| then Put(back, r, s.requests[r].(reply := Got(ok))) else back
  }

  /** The pairing command sets the progress once, whichever way it ended. */
  function ReturnPairing(s: State, r: nat, ok: bool): State {
    Return(s.(coord := s.coord.(progress := if ok then Done else Failed)), r, ok)
  }

  function Transmit(s: State, r: nat, written: bool): State {
    var armed := s.(link := s.link.(response := Oneshot(true, Waiting)));
    if written then Log(armed.(pc := CommandWait(r), since := |s.log|), Sent(r))
    else if r < |s.requests| && s.requests[r].kind.Pairing? then ReturnPairing(armed, r, false)
    else Return(armed, r, false)
  }

  function FetchStep(s: State, written: bool): State {
    if s.pc != Main || s.call != Free || s.queue == [] then s
    else Transmit(s.(queue := s.queue[1..]), s.queue[0], written)
  }

  /** Whether the worker sits in a `select!` that reads notifications. */
  predicate Listening(s: State) {
    s.call == Free && !s.pc.AuthClosing? && !s.pc.GateClosing?
  }

  /** A verified match and a lock request are calls into the coordinator; the worker is busy until they return. */
  function CallFor(effect: Effect): Call {
    match effect
    case Matched(_) => Approving
    case LockRequested => CheckingLock
    case _ => Free
  }

  function ProgressAfter(p: Progress, effect: Effect): Progress {
    if effect.PairingAt? then effect.progress else p
  }

  predicate Quiet(l: Link) {
    !l.gatePending && !l.authPending && !l.pairFpGate
  }

  function DeliverStep(s: State, frame: Frame): State {
    if !Listening(s) then s
    else
      var routed := Route(s.link, frame);
      Log(s.(link := routed.link, call := CallFor(routed.effect),
             coord := s.coord.(progress := ProgressAfter(s.coord.progress, routed.effect))),
          Received(frame, Quiet(s.link)))
  }

  function OpenAuth(s: State, r: nat): State {
    Log(s.(link := s.link.(authPending := true, auth := Oneshot(true, Waiting), failures := 0), pc := AuthWait(r), since := |s.log|),
        AuthOpened(r))
  }

  function OpenGate(s: State, r: nat): State {
    Log(s.(link := s.link.(gatePending := true, gate := Oneshot(true, Waiting), failures := 0), pc := GateWait(r),
           coord := s.coord.(gateActive := true)), GateOpened(r))
  }

  function CloseGate(s: State, r: nat, ok: bool): State {
    Log(Return(s.(link := s.link.(gatePending := false, gate := s.link.gate.Drop()), coord := s.coord.(gateActive := false)), r, ok),
        GateClosed(r))
  }

  function CloseAuth(s: State, r: nat, ok: bool): State {
    Return(s.(link := s.link.(authPending := false, auth := s.link.auth.Drop())), r, ok)
  }

  /** The command's answer is in: what it was for decides what follows. */
  function Answered(s: State, r: nat, answer: Bytes): State {
    if r >= |s.requests| then s
    else
      var kind := s.requests[r].kind;
      if kind.Pairing? then s
      else if kind.Plain? then Return(s, r, true)
      else if answer == [] then Return(s, r, false)
      else if answer[0] == OK then Return(s, r, true)
      else if (kind.Gated? || kind.Secret?) && (answer[0] == WAIT_FP || answer[0] == GATE_APPROVED) then OpenGate(s, r)
      else if kind.Authenticates() && answer[0] == WAIT_FP then OpenAuth(s, r)
      else Return(s, r, false)
  }

  function ResolveStep(s: State): State {
    if s.call != Free then s
    else match s.pc
      case CommandWait(r) => if s.link.response.rx.Got? then Answered(s, r, s.link.response.rx.value) else s
      case AuthWait(r) => if s.link.auth.rx.Got? then CloseAuth(s, r, s.link.auth.rx.value) else s
      case GateWait(r) => if s.link.gate.rx.Got? then CloseGate(s, r, s.link.gate.rx.value.passed) else s
      case _ => s
  }

  /** The wait consumes the stored permit, then writes GATE_CANCEL to the device. */
  function SeeCancelStep(s: State): State {
    if s.call != Free then s
    else match s.pc
      case AuthWait(r) =>
        if s.coord.authPermit then
          Log(s.(link := s.link.(authPending := false, auth := s.link.auth.Drop()),
                 coord := s.coord.(authPermit := false), pc := AuthClosing(r)), AuthKilled(r))
        else s
      case GateWait(r) =>
        if s.coord.gatePermit then
          Log(s.(link := s.link.(gatePending := false, gate := s.link.gate.Drop()),
                 coord := s.coord.(gatePermit := false), pc := GateClosing(r)), GateKilled(r))
        else s
      case _ => s
  }

  function CloseStep(s: State): State {
    match s.pc
    case AuthClosing(r) => CloseAuth(s, r, false)
    case GateClosing(r) => CloseGate(s, r, false)
    case _ => s
  }

  function EndPairWaits(s: State): State {
    s.(link := s.link.(pairFpGate := false, buttonPending := false, button := s.link.button.Drop(), buttonFpOk := false))
  }

  predicate InPairing(s: State) {
    match s.pc
    case CommandWait(r) => r < |s.requests| && s.requests[r].kind.Pairing?
    case ButtonWait(_) => true
    case PairFpWait(_) => true
    case _ => false
  }

  function ExpireStep(s: State): State {
    if s.call != Free then s
    else if InPairing(s) then ReturnPairing(EndPairWaits(s).(link := EndPairWaits(s).link.(response := s.link.response.Drop())), s.pc.r, false)
    else match s.pc
      case CommandWait(r) => Return(s.(link := s.link.(response := s.link.response.Drop())), r, false)
      case AuthWait(r) => CloseAuth(s, r, false)
      case GateWait(r) => CloseGate(s, r, false)
      case _ => s
  }

  /** Only the main loop watches for disconnection. */
  function DisconnectStep(s: State): State {
    if s.pc == Main && s.call == Free then s.(link := Abort(s.link)) else s
  }

  // Pairing moves between commands and its own two waits; module Pairing follows the order of `do_pair`.

  function PairAgainStep(s: State, written: bool): State {
    if s.call == Free && InPairing(s) then Transmit(EndPairWaits(s), s.pc.r, written) else s
  }

  function PairButtonStep(s: State, secondHost: bool): State {
    if s.call == Free && InPairing(s) && s.pc.CommandWait? then
      s.(pc := ButtonWait(s.pc.r), coord := s.coord.(progress := if secondHost then WaitFp else WaitButton),
         link := s.link.(buttonPending := true, button := Oneshot(true, Waiting), buttonFpOk := false, response := Oneshot(true, Waiting)))
    else s
  }

  function PairFpStep(s: State): State {
    if s.call == Free && InPairing(s) && !s.pc.ButtonWait? then
      s.(pc := PairFpWait(s.pc.r), link := s.link.(pairFpGate := true, response := Oneshot(true, Waiting), failures := 0))
    else s
  }

  function PairEndStep(s: State, ok: bool): State {
    if s.call == Free && InPairing(s) then ReturnPairing(EndPairWaits(s), s.pc.r, ok) else s
  }

  /** One step of `on_fp_match` or `handle_lock_request`; `ok` is how a `loginctl` call ended. */
  function ProceedStep(s: State, ok: bool): State {
    match s.call
    case Free => s
    case Approving =>
      (match s.coord.pendingPam
       case None => s.(call := CheckingUnlock)
       case Some(r) =>
         var taken := Log(s.(call := Stamping, coord := s.coord.(pendingPam := None)), SlotApproved(r));
         if r < |s.requests| then Put(taken, r, s.requests[r].(pending := Got(true))) else taken)
    case Stamping => s.(call := Following, coord := s.coord.(lastFlow := Some(s.now)))
    case Following => FollowUp(s, s.locked)
    case CheckingUnlock =>
      if s.locked && s.unlockEnabled then s.(call := Unlocking, coord := s.coord.(lastFlow := Some(s.now)))
      else s.(call := Free)
    case Unlocking => FollowUp(s, ok)
    case CheckingLock =>
      s.(call := if MayLock(s.lockEnabled, s.locked, s.coord.lastFlow, s.now) then Clearing else Free)
    case Clearing => Log(s.(call := Free, coord := s.coord.(preAuth := None)), WindowCleared)
  }

  function FollowUp(s: State, granted: bool): State {
    var back := s.(call := Free);
    if granted then ArmWindow(back, UNLOCK_WINDOW, UNLOCK_SERVICES, None) else back
  }

  /** The handler of a gated command watches its client from the start, before its command is queued. */
  function Starting(kind: Kind): Phase {
    if kind.Gated? then Racing else Fresh
  }

  function WorldStep(s: State, a: Action): State
    requires a.Tick? || a.Screen? || a.Settings? || a.Arrive?
  {
    match a
    case Tick(ms) => s.(now := s.now + ms)
    case Screen(isLocked) => s.(locked := isLocked)
    case Settings(unlock, lock) => s.(unlockEnabled := unlock, lockEnabled := lock)
    case Arrive(kind) => s.(requests := s.requests + [Request(kind, Starting(kind), false, Dropped, Dropped)])
  }

  predicate IsHandler(a: Action) {
    a.CheckWindow? || a.Claim? || a.Enqueue? || a.TakeReply? || a.TakePending? || a.Cancel? || a.Clear? || a.Bridge? || a.Answer?
  }

  function HandlerStep(s: State, a: Action): State
    requires IsHandler(a)
  {
    if a.r >= |s.requests| then s
    else
      var q := s.requests[a.r];
      match a
      case CheckWindow(r) => CheckWindowStep(s, r, q)
      case Claim(r) => ClaimStep(s, r, q)
      case Enqueue(r) => EnqueueStep(s, r, q)
      case TakeReply(r) => TakeReplyStep(s, r, q)
      case TakePending(r) => TakePendingStep(s, r, q)
      case Cancel(r) => CancelStep(s, r, q)
      case Clear(r) => ClearStep(s, r, q)
      case Bridge(r) => BridgeStep(s, r, q)
      case Answer(r) => AnswerStep(s, r, q)
  }

  function WorkerStep(s: State, a: Action): State
    requires !IsHandler(a) && !(a.Tick? || a.Screen? || a.Settings? || a.Arrive?)
  {
    match a
    case CancelGate => CancelGateStep(s)
    case Fetch(written) => FetchStep(s, written)
    case Deliver(frame) => DeliverStep(s, frame)
    case Resolve => ResolveStep(s)
    case SeeCancel => SeeCancelStep(s)
    case Close => CloseStep(s)
    case Expire => ExpireStep(s)
    case Disconnect => DisconnectStep(s)
    case PairAgain(written) => PairAgainStep(s, written)
    case PairButton(secondHost) => PairButtonStep(s, secondHost)
    case PairFp => PairFpStep(s)
    case PairEnd(ok) => PairEndStep(s, ok)
    case Proceed(ok) => ProceedStep(s, ok)
  }

  /** One step; an action that is not possible now leaves everything as it is. */
  function Next(s: State, a: Action): State {
    if a.Tick? || a.Screen? || a.Settings? || a.Arrive? then WorldStep(s, a)
    else if IsHandler(a) then HandlerStep(s, a)
    else WorkerStep(s, a)
  }

  /** The state after any interleaving. */
  function Run(actions: seq<Action>): State {
    if actions == [] then START else Next(Run(actions[..|actions| - 1]), actions[|actions| - 1])
  }
}
