/** The BLE worker's shared state, and what one notification does to it (`ble.rs`). */
module Link {
  import opened Wire

  const OK: byte := 0x00
  const TIMEOUT: byte := 0x06
  const NOT_MATCH: byte := 0x07
  const GATE_APPROVED: byte := 0x10
  const WAIT_FP: byte := 0x11
  const INVALID: byte := 0xFE
  const ERROR: byte := 0xFF
  const FP_MATCH: byte := 0x21
  const LOCK: byte := 0x23
  const KEEPALIVE: byte := 0x12
  const ENROLL: byte := 0x11
  const CONN_PARAMS: byte := 0xF0
  const PAIR_BUTTON: byte := 0x34
  const MAX_FAILURES: nat := 3

  /** The receiving half of a oneshot channel. */
  datatype Receiver<T> = Waiting | Got(value: T) | Dropped

  /** A oneshot: `armed` while the worker state still holds the sender. */
  datatype Oneshot<T> = Oneshot(armed: bool, rx: Receiver<T>) {
    function Send(value: T): Oneshot<T> {
      if armed then Oneshot(false, Got(value)) else this
    }

    function Drop(): Oneshot<T> {
      if armed then Oneshot(false, Dropped) else this
    }
  }

  datatype GateResult = GateResult(passed: bool, error: Option<byte>)

  datatype Progress = Idle | WaitFp | WaitButton | Ecdh | Done | Failed {
    predicate InFlight() {
      WaitFp? || WaitButton? || Ecdh?
    }
  }

  /** A notification, and whether its fingerprint HMAC verifies under the stored pairing. */
  datatype Frame = Frame(bytes: Bytes, genuine: bool)

  /** `BleState` as a value. */
  datatype Link = Link(
    response: Oneshot<Bytes>,
    gatePending: bool, gate: Oneshot<GateResult>,
    authPending: bool, auth: Oneshot<bool>,
    failures: nat,
    pairFpGate: bool,
    buttonPending: bool, button: Oneshot<byte>, buttonFpOk: bool)
  {
    /** No wait but a command's is open. */
    predicate Plain() {
      !gatePending && !authPending && !pairFpGate && !buttonPending && !gate.armed && !auth.armed && !button.armed
    }

    /** A pending flag is up exactly while the worker state holds the sender that will clear it. */
    predicate Coherent() {
      && gatePending == gate.armed
      && authPending == auth.armed
      && !(gatePending && authPending)
      && (gatePending || authPending ==> failures < MAX_FAILURES)
    }
  }

  /** What a notification makes the coordinator or the wire do. */
  datatype Effect =
    | Nothing
    | Acked                  // a fingerprint match acknowledged, nothing more
    | Matched(page: nat)     // acknowledged, and handed to `on_fp_match`
    | LockRequested
    | EnrollNews(status: byte, current: byte, total: byte)
    | PairingAt(progress: Progress)
    | GateVerified
    | GateMismatch(remaining: nat)

  datatype Routed = Routed(link: Link, effect: Effect)

  predicate IsMatch(f: Bytes) {
    |f| == 11 && f[0] == FP_MATCH
  }

  /** Notifications the device sends on its own account, never as an answer. */
  predicate IsAsync(f: Bytes) {
    || IsMatch(f)
    || (|f| == 1 && f[0] == LOCK)
    || (|f| == 4 && f[0] == KEEPALIVE)
    || (|f| == 4 && f[0] == ENROLL)
    || (|f| == 6 && f[0] == CONN_PARAMS)
    || (f != [] && f[0] == PAIR_BUTTON)
  }

  function RouteMatch(l: Link, f: Frame): Effect
    requires IsMatch(f.bytes)
  {
    if l.pairFpGate then Acked
    else if !f.genuine then Nothing
    else if l.gatePending || l.authPending then Acked
    else Matched(LittleEndian(f.bytes[1..3]))
  }

  function RouteButton(l: Link, f: Bytes): Routed {
    if |f| != 2 || !l.buttonPending then Routed(l, Nothing)
    else match f[1]
      case 1 => Routed(l, PairingAt(Ecdh))
      case 3 => Routed(l.(buttonFpOk := true), PairingAt(WaitButton))
      case 0 => Routed(l.(button := l.button.Send(0)), Nothing)
      case 2 => Routed(l.(button := l.button.Send(2)), Nothing)
      case _ => Routed(l, Nothing)
  }

  function RouteMismatch(l: Link): Routed
    requires l.gatePending || l.authPending
  {
    var failures := l.failures + 1;
    var counted := l.(failures := failures);
    if l.gatePending then
      if failures >= MAX_FAILURES then
        Routed(counted.(gatePending := false, gate := l.gate.Send(GateResult(false, Some(NOT_MATCH)))), Nothing)
      else Routed(counted, GateMismatch(MAX_FAILURES - failures))
    else if failures >= MAX_FAILURES then
      Routed(counted.(authPending := false, auth := l.auth.Send(false)), Nothing)
    else Routed(counted, Nothing)
  }

  function EndWait(l: Link, passed: bool, error: Option<byte>): Link
    requires l.gatePending || l.authPending
  {
    if l.gatePending then l.(gatePending := false, gate := l.gate.Send(GateResult(passed, error)))
    else l.(authPending := false, auth := l.auth.Send(passed))
  }

  predicate IsError(first: byte) {
    first == TIMEOUT || first == INVALID || first == ERROR
  }

  /** `route_notification`, branch by branch. */
  function Route(l: Link, frame: Frame): Routed {
    var f := frame.bytes;
    if f == [] then Routed(l, Nothing)
    else if f[0] == FP_MATCH && |f| == 11 then Routed(l, RouteMatch(l, frame))
    else if f[0] == LOCK && |f| == 1 then Routed(l, LockRequested)
    else if f[0] == KEEPALIVE && |f| == 4 then Routed(l, Nothing)
    else if f[0] == ENROLL && |f| == 4 then Routed(l, EnrollNews(f[1], f[2], f[3]))
    else if f[0] == CONN_PARAMS && |f| == 6 then Routed(l, Nothing)
    else if f[0] == PAIR_BUTTON then RouteButton(l, f)
    else if f[0] == GATE_APPROVED && (l.gatePending || l.pairFpGate) then
      Routed(l, if l.gatePending then GateVerified else Nothing)
    else if f[0] == NOT_MATCH && (l.gatePending || l.authPending) then RouteMismatch(l)
    else if f[0] == OK && (l.gatePending || l.authPending) then Routed(EndWait(l, true, None), Nothing)
    else if IsError(f[0]) && (l.gatePending || l.authPending) then Routed(EndWait(l, false, Some(f[0])), Nothing)
    else Routed(l.(response := l.response.Send(f)), Nothing)
  }

  /** A dropped connection: whoever still waits gets a failure. */
  function Abort(l: Link): Link {
    l.(gatePending := false, gate := l.gate.Send(GateResult(false, Some(ERROR))),
       authPending := false, auth := l.auth.Send(false),
       buttonPending := false, button := l.button.Send(2), buttonFpOk := false,
       response := l.response.Drop())
  }

  function RouteAll(l: Link, frames: seq<Frame>): Link {
    if frames == [] then l else Route(RouteAll(l, frames[..|frames| - 1]), frames[|frames| - 1]).link
  }

  /** Whatever arrives, flags and senders keep agreeing and the two waits stay exclusive. */
  lemma RouteKeepsCoherent(l: Link, f: Frame)
    requires l.Coherent()
    ensures Route(l, f).link.Coherent()
  {
  }

  /** No frame opens or closes a pairing wait. */
  lemma RouteKeepsPairing(l: Link, f: Frame)
    ensures var n := Route(l, f).link;
      n.pairFpGate == l.pairFpGate && n.buttonPending == l.buttonPending && (n.button.armed ==> l.button.armed)
  {
    hide RouteMatch, LittleEndian;
  }

  lemma {:induction false} RouteAllKeepsPairing(l: Link, frames: seq<Frame>)
    ensures var n := RouteAll(l, frames);
      n.pairFpGate == l.pairFpGate && n.buttonPending == l.buttonPending && (n.button.armed ==> l.button.armed)
  {
    if frames != [] {
      var front, last := frames[..|frames| - 1], frames[|frames| - 1];
      RouteAllKeepsPairing(l, front);
      RouteKeepsPairing(RouteAll(l, front), last);
      hide Route;
    }
  }

  /** A match reaches the coordinator only if its HMAC verified and no gate, authentication or pairing was waiting. */
  lemma MatchNeedsGenuineIdle(l: Link, f: Frame)
    ensures Route(l, f).effect.Matched? <==>
      f.genuine && IsMatch(f.bytes) && !l.gatePending && !l.authPending && !l.pairFpGate
    ensures Route(l, f).effect.Matched? ==> Route(l, f).link == l
  {
    hide LittleEndian;
  }

  /** The page a match names stands behind its first byte, low byte first. */
  lemma PageMeans(l: Link, f: Frame)
    requires Route(l, f).effect.Matched?
    ensures |f.bytes| == 11 && Route(l, f).effect.page == f.bytes[1] + 256 * f.bytes[2] as nat
  {
    var page := f.bytes[1..3];
    assert page == [f.bytes[1], f.bytes[2]] && page[1..] == [f.bytes[2]];
    assert LittleEndian([f.bytes[2]]) == f.bytes[2] as nat;
  }

  /** What each frame makes the daemon do besides, by its bytes and the waits open: nothing else does. */
  lemma EffectMeans(l: Link, f: Frame)
    ensures var e, b := Route(l, f).effect, f.bytes;
      && (e.LockRequested? <==> b == [0x23])
      && (e.EnrollNews? <==> |b| == 4 && b[0] == 0x11)
      && (e.EnrollNews? ==> b == [0x11, e.status, e.current, e.total])
      && (e == PairingAt(Ecdh) <==> b == [0x34, 1] && l.buttonPending)
      && (e == PairingAt(WaitButton) <==> b == [0x34, 3] && l.buttonPending)
      && (e.PairingAt? ==> e.progress == Ecdh || e.progress == WaitButton)
      && (e.GateVerified? <==> b != [] && b[0] == 0x10 && l.gatePending)
      && (e.GateMismatch? <==> b != [] && b[0] == 0x07 && l.gatePending && l.failures + 1 < 3)
      && (e.GateMismatch? ==> e.remaining == 3 - (l.failures + 1))
  {
    hide LittleEndian;
  }

  /** A notification is never an answer: no waiting command, gate or authentication resolves on it. */
  lemma AsyncNeverResolves(l: Link, f: Frame)
    requires IsAsync(f.bytes)
    ensures var n := Route(l, f).link;
      n.response == l.response && n.gate == l.gate && n.auth == l.auth && n.gatePending == l.gatePending && n.authPending == l.authPending
  {
  }

  // ---- What answers a command ----

  predicate IsAnswer(f: Frame) {
    f.bytes != [] && !IsAsync(f.bytes)
  }

  function FirstAnswer(frames: seq<Frame>): Option<Bytes> {
    if frames == [] then None
    else
      var n := |frames| - 1;
      var earlier := FirstAnswer(frames[..n]);
      if earlier.Some? then earlier else if IsAnswer(frames[n]) then Some(frames[n].bytes) else None
  }

  lemma {:induction false} FirstAnswerMeans(frames: seq<Frame>)
    ensures FirstAnswer(frames).None? <==> forall k :: 0 <= k < |frames| ==> !IsAnswer(frames[k])
    ensures FirstAnswer(frames).Some? ==>
      exists k :: 0 <= k < |frames| && IsAnswer(frames[k]) && FirstAnswer(frames) == Some(frames[k].bytes)
                  && forall j :: 0 <= j < k ==> !IsAnswer(frames[j])
  {
    if frames != [] {
      FirstAnswerMeans(frames[..|frames| - 1]);
    }
  }

  /** With only a command waiting, a frame stream does one thing: its first answer resolves the command. */
  lemma {:induction false} CommandGetsFirstAnswer(l: Link, frames: seq<Frame>)
    requires l.Plain()
    ensures RouteAll(l, frames) ==
      match FirstAnswer(frames)
      case None => l
      case Some(answer) => l.(response := l.response.Send(answer))
  {
    if frames != [] {
      var front, last := frames[..|frames| - 1], frames[|frames| - 1];
      CommandGetsFirstAnswer(l, front);
    }
  }

  /** Outside a gate, a frame answers the waiting command or leaves it alone. */
  lemma ResponseStep(l: Link, f: Frame)
    requires !l.gatePending && !l.authPending && !l.pairFpGate
    ensures Route(l, f).link.response == if IsAnswer(f) then l.response.Send(f.bytes) else l.response
  {
  }

  /** Outside a gate, whatever pairing does meanwhile, the first answer is still what the armed command gets. */
  lemma {:induction false} ResponseIsFirstAnswer(l: Link, frames: seq<Frame>)
    requires !l.gatePending && !l.authPending && !l.pairFpGate
    ensures var n := RouteAll(l, frames);
      && !n.gatePending && !n.authPending && !n.pairFpGate && n.buttonPending == l.buttonPending
      && n.response == match FirstAnswer(frames)
                       case None => l.response
                       case Some(answer) => l.response.Send(answer)
  {
    if frames != [] {
      ResponseIsFirstAnswer(l, frames[..|frames| - 1]);
    }
  }

  // ---- What ends a gate or an authentication ----

  predicate IsMismatch(f: Frame) {
    f.bytes != [] && f.bytes[0] == NOT_MATCH
  }

  predicate IsGrant(f: Frame) {
    f.bytes != [] && f.bytes[0] == OK
  }

  predicate IsFailure(f: Frame) {
    f.bytes != [] && IsError(f.bytes[0])
  }

  function Mismatches(frames: seq<Frame>): nat {
    |Filter(frames, IsMismatch)|
  }

  /** Frame `k` settles the wait, provided no earlier one did: success, an error, or the third mismatch. */
  predicate Settles(frames: seq<Frame>, k: nat)
    requires k < |frames|
  {
    || IsGrant(frames[k])
    || IsFailure(frames[k])
    || (IsMismatch(frames[k]) && Mismatches(frames[..k]) == MAX_FAILURES - 1)
  }

  function ResultOf(f: Frame): GateResult
    requires f.bytes != []
  {
    if IsGrant(f) then GateResult(true, None) else GateResult(false, Some(f.bytes[0]))
  }

  /** The first frame to settle the wait decides it. */
  function Verdict(frames: seq<Frame>): Option<GateResult> {
    if frames == [] then None
    else
      var n := |frames| - 1;
      var earlier := Verdict(frames[..n]);
      if earlier.Some? then earlier
      else if Settles(frames, n) then Some(ResultOf(frames[n]))
      else None
  }

  /** Frame `k` is the first to settle the wait. */
  predicate FirstSettles(frames: seq<Frame>, k: nat) {
    k < |frames| && Settles(frames, k) && forall j :: 0 <= j < k ==> !Settles(frames, j)
  }

  /** Whether an earlier frame settles the wait does not depend on the last one. */
  lemma SettlesFront(frames: seq<Frame>, k: nat)
    requires k + 1 < |frames|
    ensures Settles(frames, k) == Settles(frames[..|frames| - 1], k)
  {
    assert frames[..k] == frames[..|frames| - 1][..k];
  }

  predicate NoneSettles(frames: seq<Frame>) {
    forall k :: 0 <= k < |frames| ==> !Settles(frames, k)
  }

  ghost predicate SettledWith(frames: seq<Frame>, result: GateResult) {
    exists k: nat :: FirstSettles(frames, k) && result == ResultOf(frames[k])
  }

  lemma SettlingNext(frames: seq<Frame>, result: GateResult)
    requires frames != []
    ensures var n := |frames| - 1;
      && (NoneSettles(frames) <==> NoneSettles(frames[..n]) && !Settles(frames, n))
      && (SettledWith(frames[..n], result) ==> SettledWith(frames, result) && !NoneSettles(frames))
      && (NoneSettles(frames[..n]) && Settles(frames, n) ==> SettledWith(frames, ResultOf(frames[n])))
  {
    var n := |frames| - 1;
    var front := frames[..n];
    forall k | 0 <= k < n ensures Settles(frames, k) == Settles(front, k) {
      SettlesFront(frames, k);
    }
    if SettledWith(front, result) {
      var k: nat :| FirstSettles(front, k) && result == ResultOf(front[k]);
      assert FirstSettles(frames, k);
    }
    if NoneSettles(front) && Settles(frames, n) {
      assert FirstSettles(frames, n);
    }
  }

  lemma {:induction false} VerdictMeans(frames: seq<Frame>)
    ensures Verdict(frames).None? <==> forall k :: 0 <= k < |frames| ==> !Settles(frames, k)
    ensures Verdict(frames).Some? ==> exists k: nat :: FirstSettles(frames, k) && Verdict(frames) == Some(ResultOf(frames[k]))
  {
    VerdictIs(frames);
    if Verdict(frames).Some? {
      var k: nat :| FirstSettles(frames, k) && Verdict(frames).value == ResultOf(frames[k]);
      hide *;
    } else {
      hide Settles, Verdict;
    }
  }

  lemma {:induction false} VerdictIs(frames: seq<Frame>)
    ensures Verdict(frames).None? <==> NoneSettles(frames)
    ensures Verdict(frames).Some? ==> SettledWith(frames, Verdict(frames).value)
  {
    if frames != [] {
      var n := |frames| - 1;
      var front := frames[..n];
      assert Verdict(frames) == if Verdict(front).Some? then Verdict(front) else if Settles(frames, n) then Some(ResultOf(frames[n])) else None;
      SettlingNext(frames, if Verdict(front).Some? then Verdict(front).value else GateResult(false, None));
      hide *;
      VerdictIs(front);
    }
  }

  lemma {:induction false} VerdictNeverFlips(frames: seq<Frame>, more: seq<Frame>)
    requires Verdict(frames).Some?
    ensures Verdict(frames + more) == Verdict(frames)
  {
    if more == [] {
      assert frames + more == frames;
    } else {
      var n := |more| - 1;
      assert (frames + more)[..|frames| + n] == frames + more[..n];
      VerdictNeverFlips(frames, more[..n]);
    }
  }

  /** An open gate, `failures` mismatches in. */
  predicate GateOpen(l: Link, failures: nat) {
    l.gatePending && l.gate == Oneshot(true, Waiting) && l.failures == failures && !l.authPending && !l.auth.armed
  }

  predicate AuthOpen(l: Link, failures: nat) {
    l.authPending && l.auth == Oneshot(true, Waiting) && l.failures == failures && !l.gatePending && !l.gate.armed
  }

  predicate GateEnded(l: Link, result: GateResult) {
    !l.gatePending && l.gate == Oneshot(false, Got(result)) && !l.authPending && !l.auth.armed
  }

  predicate AuthEnded(l: Link, passed: bool) {
    !l.authPending && l.auth == Oneshot(false, Got(passed)) && !l.gatePending && !l.gate.armed
  }

  /** What one more frame does to a wait that `count` mismatches have not settled. */
  function Settled(count: nat, f: Frame): (r: Option<GateResult>)
    ensures r.Some? ==> f.bytes != [] && r.value == ResultOf(f)
  {
    if IsGrant(f) || IsFailure(f) || (IsMismatch(f) && count == MAX_FAILURES - 1) then Some(ResultOf(f)) else None
  }

  lemma GateStep(l: Link, count: nat, f: Frame)
    requires GateOpen(l, count) && count < MAX_FAILURES
    ensures var n := Route(l, f).link;
      match Settled(count, f)
      case Some(result) => GateEnded(n, result)
      case None => GateOpen(n, if IsMismatch(f) then count + 1 else count)
  {
  }

  lemma GateStays(l: Link, result: GateResult, f: Frame)
    requires GateEnded(l, result)
    ensures GateEnded(Route(l, f).link, result)
  {
  }

  lemma AuthStep(l: Link, count: nat, f: Frame)
    requires AuthOpen(l, count) && count < MAX_FAILURES
    ensures var n := Route(l, f).link;
      match Settled(count, f)
      case Some(result) => AuthEnded(n, result.passed)
      case None => AuthOpen(n, if IsMismatch(f) then count + 1 else count)
  {
  }

  lemma AuthStays(l: Link, passed: bool, f: Frame)
    requires AuthEnded(l, passed)
    ensures AuthEnded(Route(l, f).link, passed)
  {
  }

  lemma VerdictStep(frames: seq<Frame>)
    requires frames != []
    ensures var front, last := frames[..|frames| - 1], frames[|frames| - 1];
      && (Verdict(front).Some? ==> Verdict(frames) == Verdict(front))
      && (Verdict(front).None? ==> Verdict(frames) == Settled(Mismatches(front), last))
      && Mismatches(frames) == Mismatches(front) + if IsMismatch(last) then 1 else 0
  {
  }

  /** The gate's result is the verdict over the frames routed since it opened; until then it is pending. */
  lemma {:induction false} GateEndsOnVerdict(l: Link, frames: seq<Frame>)
    requires GateOpen(l, 0)
    ensures match Verdict(frames)
      case Some(result) => GateEnded(RouteAll(l, frames), result)
      case None => Mismatches(frames) < MAX_FAILURES && GateOpen(RouteAll(l, frames), Mismatches(frames))
  {
    if frames != [] {
      var front, last := frames[..|frames| - 1], frames[|frames| - 1];
      GateEndsOnVerdict(l, front);
      VerdictStep(frames);
      var before := RouteAll(l, front);
      hide Verdict, Route, GateOpen, GateEnded, Mismatches;
      if Verdict(front).Some? {
        GateStays(before, Verdict(front).value, last);
      } else {
        GateStep(before, Mismatches(front), last);
      }
    }
  }

  /** An authentication ends the same way, on the verdict's yes or no. */
  lemma {:induction false} AuthEndsOnVerdict(l: Link, frames: seq<Frame>)
    requires AuthOpen(l, 0)
    ensures match Verdict(frames)
      case Some(result) => AuthEnded(RouteAll(l, frames), result.passed)
      case None => Mismatches(frames) < MAX_FAILURES && AuthOpen(RouteAll(l, frames), Mismatches(frames))
  {
    if frames != [] {
      var front, last := frames[..|frames| - 1], frames[|frames| - 1];
      AuthEndsOnVerdict(l, front);
      VerdictStep(frames);
      var before := RouteAll(l, front);
      hide Verdict, Route, AuthOpen, AuthEnded, Mismatches;
      if Verdict(front).Some? {
        AuthStays(before, Verdict(front).value.passed, last);
      } else {
        AuthStep(before, Mismatches(front), last);
      }
    }
  }
}
