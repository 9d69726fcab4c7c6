/** Pairing: the button wait, the fingerprint gate and the attempts of `do_pair` (`ble.rs`). Times in milliseconds. */
module Pairing {
  import opened Wire
  import opened Link
  import opened Worker
  import SlotClear

  const BUTTON_WINDOW: nat := 35_000
  const GATE_WINDOW: nat := 30_000
  const PAIR_INIT: byte := 0x30
  const PAIR_CONFIRM: byte := 0x31
  const CONN_PARAMS_REJECTED: byte := 0xE1
  const WAIT_BUTTON: byte := 0xF0
  const NEEDS_RESET: byte := 0xF1
  const BUSY: byte := 0xFD
  const KEY_LEN: nat := 33
  const RETRIES: nat := 3

  datatype PairError =
    | Device(failure: Failure) | NotPressed | LongPress | NoButtonEvent | TooManyMismatches | GateTimeout | GateError(code: byte)
    | ParamsIncomplete | NeedsReset | BadInit | BadConfirm | NoSecret

  /** What `select!` can pick: the armed response, the button's oneshot, a notification, or the deadline. */
  datatype Pick = TakeAnswer | TakeButton | TakeFrame(frame: Frame) | TakeDeadline

  /** A pick and the time it is made; a branch that is not ready is passed over. */
  datatype Timed = Timed(at: nat, pick: Pick)

  function Came(picks: seq<Timed>): seq<Frame> {
    if picks == [] then []
    else
      var front, last := Came(picks[..|picks| - 1]), picks[|picks| - 1].pick;
      if last.TakeFrame? then front + [last.frame] else front
  }

  lemma CameNext(picks: seq<Timed>, from: nat, i: nat)
    requires from <= i < |picks|
    ensures Came(picks[from..i + 1]) ==
      if picks[i].pick.TakeFrame? then Came(picks[from..i]) + [picks[i].pick.frame] else Came(picks[from..i])
  {
    assert picks[from..i + 1][..i - from] == picks[from..i];
  }

  // ---- The button wait ----

  predicate IsStatus(f: Frame, status: byte) {
    f.bytes == [PAIR_BUTTON, status]
  }

  /** The first terminal button event: 0 for a missed window, 2 for a long press. */
  function FirstTerminal(frames: seq<Frame>): Option<byte> {
    if frames == [] then None
    else
      var n := |frames| - 1;
      var earlier := FirstTerminal(frames[..n]);
      if earlier.Some? then earlier
      else if IsStatus(frames[n], 0) then Some(0)
      else if IsStatus(frames[n], 2) then Some(2)
      else None
  }

  predicate FingerprintSeen(frames: seq<Frame>) {
    exists k :: 0 <= k < |frames| && IsStatus(frames[k], 3)
  }

  function TerminalError(status: byte): PairError {
    if status == 0 then NotPressed else LongPress
  }

  /** The deadline in force, and whether it has been extended. */
  datatype Clock = Clock(deadline: nat, extended: bool)

  function Opening(start: nat): Clock {
    Clock(start + BUTTON_WINDOW, false)
  }

  /** One turn of the loop: what it ends the wait with, if it does, and the clock it leaves. */
  datatype Turn = Turn(end: Option<Result<Bytes, PairError>>, clock: Clock)

  /** The first sight of an accepted fingerprint opens the window once more. */
  function ButtonTurn(picks: seq<Timed>, i: nat, c: Clock): Turn
    requires i < |picks|
  {
    var before := Came(picks[0..i]);
    match picks[i].pick
    case TakeAnswer =>
      (match FirstAnswer(before)
       case Some(answer) => Turn(Some(Ok(answer)), c)
       case None => Turn(None, c))
    case TakeButton =>
      (match FirstTerminal(before)
       case Some(status) => Turn(Some(Err(TerminalError(status))), c)
       case None => Turn(None, c))
    case TakeFrame(_) =>
      Turn(None, if FingerprintSeen(Came(picks[0..i + 1])) && !c.extended then Clock(picks[i].at + BUTTON_WINDOW, true) else c)
    case TakeDeadline => Turn(if picks[i].at >= c.deadline then Some(Err(NoButtonEvent)) else None, c)
  }

  function ButtonWait(picks: seq<Timed>, i: nat, c: Clock): (r: Wait<Result<Bytes, PairError>>)
    requires i <= |picks|
    ensures r.Ended? ==> i < r.at <= |picks|
    decreases |picks| - i
  {
    if i == |picks| then Going
    else
      var p := ButtonTurn(picks, i, c);
      if p.end.Some? then Ended(p.end.value, i + 1) else ButtonWait(picks, i + 1, p.clock)
  }

  /** The clock after `i` turns. */
  function ClockAt(picks: seq<Timed>, i: nat, start: nat): Clock
    requires i <= |picks|
  {
    if i == 0 then Opening(start) else ButtonTurn(picks, i - 1, ClockAt(picks, i - 1, start)).clock
  }

  /** Where the window in force began: at the first report of an accepted fingerprint, or else with the wait. */
  function WindowStart(picks: seq<Timed>, i: nat, start: nat): nat
    requires i <= |picks|
  {
    if i == 0 then start
    else if picks[i - 1].pick.TakeFrame? && picks[i - 1].pick.frame.bytes == [0x34, 3] && !FingerprintSeen(Came(picks[0..i - 1]))
    then picks[i - 1].at
    else WindowStart(picks, i - 1, start)
  }

  /** The deadline is 35 seconds after the wait began or, from its first report on, after the accepted fingerprint: never later. */
  lemma {:induction false} DeadlineMeans(picks: seq<Timed>, i: nat, start: nat)
    requires i <= |picks|
    ensures ClockAt(picks, i, start).deadline == WindowStart(picks, i, start) + BUTTON_WINDOW
    ensures ClockAt(picks, i, start).extended == FingerprintSeen(Came(picks[0..i]))
  {
    if i > 0 {
      DeadlineMeans(picks, i - 1, start);
      SeenAt(picks, i - 1);
      ClockNext(picks, i - 1, ClockAt(picks, i - 1, start));
      hide FingerprintSeen, ButtonTurn, Came;
    }
  }

  /** A turn moves the clock on the first report of an accepted fingerprint only. */
  lemma ClockNext(picks: seq<Timed>, i: nat, c: Clock)
    requires i < |picks|
    ensures ButtonTurn(picks, i, c).clock ==
      if picks[i].pick.TakeFrame? && FingerprintSeen(Came(picks[0..i + 1])) && !c.extended then Clock(picks[i].at + BUTTON_WINDOW, true) else c
  {
    hide FingerprintSeen, FirstAnswer, FirstTerminal, Came;
  }

  lemma SeenAt(picks: seq<Timed>, i: nat)
    requires i < |picks|
    ensures FingerprintSeen(Came(picks[0..i + 1])) <==>
      FingerprintSeen(Came(picks[0..i])) || (picks[i].pick.TakeFrame? && IsStatus(picks[i].pick.frame, 3))
  {
    CameNext(picks, 0, i);
    hide Came, IsStatus;
    if picks[i].pick.TakeFrame? {
      SeenNext(Came(picks[0..i]), picks[i].pick.frame);
    }
    hide FingerprintSeen;
  }

  lemma SeenNext(frames: seq<Frame>, f: Frame)
    ensures FingerprintSeen(frames + [f]) == (FingerprintSeen(frames) || IsStatus(f, 3))
  {
    var all := frames + [f];
    assert all[|frames|] == f;
    assert forall k :: 0 <= k < |frames| ==> all[k] == frames[k];
  }

  /** No pick up to the `n`th is made more than `late` milliseconds after the deadline then in force. */
  predicate Punctual(picks: seq<Timed>, n: nat, start: nat, late: nat)
    requires n <= |picks|
  {
    forall i :: 0 <= i < n ==> picks[i].at <= ClockAt(picks, i, start).deadline + late
  }

  lemma {:induction false} WindowIsBounded(picks: seq<Timed>, n: nat, start: nat, late: nat)
    requires n <= |picks| && Punctual(picks, n, start, late)
    ensures var from := WindowStart(picks, n, start);
      if FingerprintSeen(Came(picks[0..n])) then from <= start + BUTTON_WINDOW + late else from == start
  {
    if n > 0 {
      var last := picks[n - 1];
      assert Punctual(picks, n - 1, start, late) && last.at <= ClockAt(picks, n - 1, start).deadline + late;
      hide Punctual, FingerprintSeen, ClockAt, Came, IsStatus;
      WindowIsBounded(picks, n - 1, start, late);
      DeadlineMeans(picks, n - 1, start);
      SeenAt(picks, n - 1);
    }
  }

  /** Turn `i` is within the window, or within the second one if an accepted fingerprint was reported before it. */
  predicate InTime(picks: seq<Timed>, i: nat, start: nat, late: nat)
    requires i < |picks|
  {
    picks[i].at <= start + (if FingerprintSeen(Came(picks[0..i])) then 2 * (BUTTON_WINDOW + late) else BUTTON_WINDOW + late)
  }

  lemma TurnIsBounded(picks: seq<Timed>, i: nat, start: nat, late: nat)
    requires i < |picks| && Punctual(picks, i + 1, start, late)
    ensures InTime(picks, i, start, late)
  {
    assert Punctual(picks, i, start, late) && picks[i].at <= ClockAt(picks, i, start).deadline + late;
    hide Punctual, FingerprintSeen, ClockAt, Came, WindowStart;
    DeadlineMeans(picks, i, start);
    WindowIsBounded(picks, i, start, late);
  }

  lemma NeverTimesOutEarly(picks: seq<Timed>, start: nat)
    ensures var r := ButtonWait(picks, 0, Opening(start));
      r.Ended? && r.value == Err(NoButtonEvent) ==> picks[r.at - 1].at >= WindowStart(picks, r.at - 1, start) + BUTTON_WINDOW
  {
    var r := ButtonWait(picks, 0, Opening(start));
    if r.Ended? {
      EndsOnTurn(picks, 0, start);
      DeadlineMeans(picks, r.at - 1, start);
      hide FingerprintSeen, ClockAt, Came, ButtonWait, WindowStart;
    }
  }

  /** How many turns the wait takes of these picks: all of them if it is still going. */
  function Turns(picks: seq<Timed>, start: nat): (n: nat)
    ensures n <= |picks|
  {
    var r := ButtonWait(picks, 0, Opening(start));
    if r.Ended? then r.at else |picks|
  }

  /**
   * However many events or other frames the device sends, a wait whose picks come at most `late` milliseconds after its
   * deadline takes its last turn within 35 seconds and that delay, twice that once an accepted fingerprint was reported,
   * whether that turn ends it or not: no wait outlasts its window. And none times out before its window is over.
   */
  lemma ButtonWaitIsBounded(picks: seq<Timed>, start: nat, late: nat)
    ensures Punctual(picks, Turns(picks, start), start, late) ==>
      forall i :: 0 <= i < Turns(picks, start) ==> InTime(picks, i, start, late)
    ensures var r := ButtonWait(picks, 0, Opening(start));
      r.Ended? && r.value == Err(NoButtonEvent) ==> picks[r.at - 1].at >= WindowStart(picks, r.at - 1, start) + BUTTON_WINDOW
  {
    hide InTime, ButtonWait, WindowStart, Turns, ClockAt;
    NeverTimesOutEarly(picks, start);
    var n := Turns(picks, start);
    if Punctual(picks, n, start, late) {
      forall i | 0 <= i < n ensures InTime(picks, i, start, late) {
        assert Punctual(picks, i + 1, start, late);
        TurnIsBounded(picks, i, start, late);
      }
    }
  }

  /** The turn that ended the wait ran under the clock of all turns before it. */
  lemma {:induction false} EndsOnTurn(picks: seq<Timed>, i: nat, start: nat)
    requires i <= |picks|
    ensures var r := ButtonWait(picks, i, ClockAt(picks, i, start));
      r.Ended? ==> ButtonTurn(picks, r.at - 1, ClockAt(picks, r.at - 1, start)).end == Some(r.value)
    decreases |picks| - i
  {
    hide ButtonTurn;
    if i < |picks| {
      EndsOnTurn(picks, i + 1, start);
    }
  }

  /** The first `[0x34, 0]` or `[0x34, 2]` among the frames has this status. */
  ghost predicate TerminalIs(frames: seq<Frame>, status: byte) {
    (status == 0 || status == 2) && exists k :: IsFirstTerminal(frames, k, status)
  }

  predicate IsFirstTerminal(frames: seq<Frame>, k: int, status: byte) {
    && 0 <= k < |frames| && frames[k].bytes == [0x34, status]
    && forall j :: 0 <= j < k ==> frames[j].bytes != [0x34, 0] && frames[j].bytes != [0x34, 2]
  }

  lemma {:induction false} FirstTerminalMeans(frames: seq<Frame>, status: byte)
    ensures FirstTerminal(frames) == Some(status) <==> TerminalIs(frames, status)
    ensures FirstTerminal(frames).None? ==> forall k :: 0 <= k < |frames| ==> frames[k].bytes != [0x34, 0] && frames[k].bytes != [0x34, 2]
  {
    if frames != [] {
      var n := |frames| - 1;
      var front := frames[..n];
      FirstTerminalMeans(front, status);
      if k :| IsFirstTerminal(frames, k, status) {
        assert k < n ==> IsFirstTerminal(front, k, status);
      }
      if FirstTerminal(front).Some? {
        FirstTerminalMeans(front, FirstTerminal(front).value);
        var k :| IsFirstTerminal(front, k, FirstTerminal(front).value);
        assert IsFirstTerminal(frames, k, FirstTerminal(front).value);
      } else if IsStatus(frames[n], 0) || IsStatus(frames[n], 2) {
        assert IsFirstTerminal(frames, n, frames[n].bytes[1]);
      }
    }
  }

  /**
   * At pick `k` there is an end to take: the first real answer came in before it; or a terminal button event did, and the first
   * was a missed window or a long press; or the deadline is there, 35 seconds after the wait or its accepted fingerprint.
   */
  ghost predicate ButtonEnds(picks: seq<Timed>, start: nat, k: nat, value: Result<Bytes, PairError>) {
    && k < |picks|
    && var before := Came(picks[0..k]);
      match picks[k].pick
      case TakeAnswer => value.Ok? && FirstAnswer(before) == Some(value.value)
      case TakeButton => (value == Err(NotPressed) && TerminalIs(before, 0)) || (value == Err(LongPress) && TerminalIs(before, 2))
      case TakeDeadline => value == Err(NoButtonEvent) && picks[k].at >= WindowStart(picks, k, start) + 35_000
      case TakeFrame(_) => false
  }

  lemma TurnEnds(picks: seq<Timed>, start: nat, k: nat, value: Result<Bytes, PairError>)
    requires k < |picks|
    ensures ButtonTurn(picks, k, ClockAt(picks, k, start)).end == Some(value) <==> ButtonEnds(picks, start, k, value)
  {
    DeadlineMeans(picks, k, start);
    var before := Came(picks[0..k]);
    FirstTerminalMeans(before, 0);
    FirstTerminalMeans(before, 2);
    if FirstTerminal(before).Some? {
      FirstTerminalMeans(before, FirstTerminal(before).value);
    }
    hide ClockAt, Came, FirstTerminal, WindowStart, FingerprintSeen, FirstAnswer, IsFirstTerminal;
  }

  ghost predicate NoEndBefore(picks: seq<Timed>, start: nat, i: nat, k: nat) {
    forall j: nat, v :: i <= j < k ==> !ButtonEnds(picks, start, j, v)
  }

  lemma {:induction false} EndsFirst(picks: seq<Timed>, i: nat, start: nat, k: nat, value: Result<Bytes, PairError>)
    requires i <= |picks|
    ensures ButtonWait(picks, i, ClockAt(picks, i, start)) == Ended(value, k + 1) <==>
      i <= k && ButtonEnds(picks, start, k, value) && NoEndBefore(picks, start, i, k)
    decreases |picks| - i
  {
    if i < |picks| {
      var turn := ButtonTurn(picks, i, ClockAt(picks, i, start));
      assert turn.clock == ClockAt(picks, i + 1, start);
      hide ButtonTurn, ClockAt, ButtonEnds;
      EndsFirst(picks, i + 1, start, k, value);
      TurnEnds(picks, start, i, value);
      if turn.end.Some? {
        TurnEnds(picks, start, i, turn.end.value);
      }
      forall v ensures ButtonEnds(picks, start, i, v) <==> turn.end == Some(v) {
        TurnEnds(picks, start, i, v);
      }
    }
  }

  /** The wait ends with exactly the first end there is to take: an answer, a button event or the deadline, whichever is picked first. */
  lemma ButtonWaitIff(picks: seq<Timed>, start: nat, k: nat, value: Result<Bytes, PairError>)
    ensures ButtonWait(picks, 0, Opening(start)) == Ended(value, k + 1) <==>
      ButtonEnds(picks, start, k, value) && NoEndBefore(picks, start, 0, k)
  {
    EndsFirst(picks, 0, start, k, value);
    hide ButtonWait, ButtonEnds;
  }

  /** The state while waiting: response, button channel and fingerprint flag are what the frames so far make them. */
  predicate WaitState(l: Link, frames: seq<Frame>) {
    && !l.gatePending && !l.authPending && !l.pairFpGate && !l.gate.armed && !l.auth.armed && l.buttonPending
    && l.response == (match FirstAnswer(frames) case None => Oneshot(true, Waiting) case Some(a) => Oneshot(false, Got(a)))
    && l.button == (match FirstTerminal(frames) case None => Oneshot(true, Waiting) case Some(t) => Oneshot(false, Got(t)))
    && l.buttonFpOk == FingerprintSeen(frames)
  }

  lemma ButtonRoutes(l: Link, f: Frame)
    requires f.bytes != [] && f.bytes[0] == PAIR_BUTTON && l.buttonPending
    ensures IsStatus(f, 3) ==> Route(l, f).link == l.(buttonFpOk := true)
    ensures IsStatus(f, 0) ==> Route(l, f).link == l.(button := l.button.Send(0))
    ensures IsStatus(f, 2) ==> Route(l, f).link == l.(button := l.button.Send(2))
    ensures !IsStatus(f, 3) && !IsStatus(f, 0) && !IsStatus(f, 2) ==> Route(l, f).link == l
  {
  }

  lemma OthersRoute(l: Link, f: Frame)
    requires !l.gatePending && !l.authPending && !l.pairFpGate && (f.bytes == [] || f.bytes[0] != PAIR_BUTTON)
    ensures Route(l, f).link == if IsAnswer(f) then l.(response := l.response.Send(f.bytes)) else l
  {
  }

  lemma WaitStateNext(l: Link, frames: seq<Frame>, f: Frame)
    requires WaitState(l, frames)
    ensures WaitState(Route(l, f).link, frames + [f])
  {
    var all := frames + [f];
    assert all[..|all| - 1] == frames;
    SeenNext(frames, f);
    if f.bytes != [] && f.bytes[0] == PAIR_BUTTON {
      ButtonRoutes(l, f);
      assert !IsAnswer(f);
    } else {
      OthersRoute(l, f);
    }
    assert FirstAnswer(all) == if FirstAnswer(frames).Some? then FirstAnswer(frames) else if IsAnswer(f) then Some(f.bytes) else None;
    hide Route, FingerprintSeen, FirstAnswer;
  }

  /** One turn of the loop. */
  method ButtonPick(state: BleState, picks: seq<Timed>, i: nat, clock: Clock) returns (end: Option<Result<Bytes, PairError>>, c: Clock)
    requires i < |picks| && WaitState(state.View(), Came(picks[0..i]))
    modifies state
    ensures Turn(end, c) == ButtonTurn(picks, i, clock)
    ensures WaitState(state.View(), Came(picks[0..i + 1]))
  {
    end, c := None, clock;
    CameNext(picks, 0, i);
    hide Came;
    match picks[i].pick
    case TakeAnswer =>
      if state.response.rx.Got? {
        end := Some(Ok(state.response.rx.value));
      }
    case TakeButton =>
      if state.button.rx.Got? {
        end := Some(Err(TerminalError(state.button.rx.value)));
      }
    case TakeFrame(frame) =>
      WaitStateNext(state.View(), Came(picks[0..i]), frame);
      hide Route, FirstAnswer, FirstTerminal, FingerprintSeen;
      var _ := state.RouteNotification(frame);
      if state.buttonFpOk && !c.extended {
        c := Clock(picks[i].at + BUTTON_WINDOW, true);
      }
    case TakeDeadline =>
      if picks[i].at >= c.deadline {
        end := Some(Err(NoButtonEvent));
      }
  }

  method WaitPairButton(state: BleState, picks: seq<Timed>, start: nat) returns (r: Wait<Result<Bytes, PairError>>)
    requires state.View().Plain()
    modifies state
    ensures r == ButtonWait(picks, 0, Opening(start))
    ensures r.Ended? ==> state.View().Plain()
  {
    state.buttonPending, state.button, state.buttonFpOk := true, Oneshot(true, Waiting), false;
    state.response := Oneshot(true, Waiting);
    var c := Opening(start);
    for i := 0 to |picks|
      invariant WaitState(state.View(), Came(picks[0..i]))
      invariant ButtonWait(picks, 0, Opening(start)) == ButtonWait(picks, i, c)
    {
      hide Came, ButtonTurn, FirstAnswer, FirstTerminal, FingerprintSeen;
      var end: Option<Result<Bytes, PairError>>;
      end, c := ButtonPick(state, picks, i, c);
      if end.Some? {
        state.buttonPending, state.button, state.buttonFpOk := false, state.button.Drop(), false;
        return Ended(end.value, i + 1);
      }
    }
    return Going;
  }

  // ---- The fingerprint gate of old firmware ----

  /** While the gate is open an approval notice is swallowed; any other answer resolves the re-armed command. */
  predicate IsGateAnswer(f: Frame) {
    IsAnswer(f) && f.bytes[0] != GATE_APPROVED
  }

  function FirstGateAnswer(frames: seq<Frame>): Option<Bytes> {
    if frames == [] then None
    else
      var n := |frames| - 1;
      var earlier := FirstGateAnswer(frames[..n]);
      if earlier.Some? then earlier else if IsGateAnswer(frames[n]) then Some(frames[n].bytes) else None
  }

  /** Frame `k` is the first to answer. */
  predicate AnswersGate(frames: seq<Frame>, k: nat) {
    k < |frames| && IsGateAnswer(frames[k]) && forall j :: 0 <= j < k ==> !IsGateAnswer(frames[j])
  }

  lemma {:induction false} FirstGateAnswerMeans(frames: seq<Frame>)
    ensures FirstGateAnswer(frames).None? <==> forall k :: 0 <= k < |frames| ==> !IsGateAnswer(frames[k])
    ensures FirstGateAnswer(frames).Some? ==> exists k: nat :: AnswersGate(frames, k) && FirstGateAnswer(frames) == Some(frames[k].bytes)
  {
    hide IsGateAnswer;
    if frames != [] {
      var n := |frames| - 1;
      var front := frames[..n];
      FirstGateAnswerMeans(front);
      if FirstGateAnswer(front).Some? {
        var k: nat :| AnswersGate(front, k) && FirstGateAnswer(front) == Some(front[k].bytes);
        assert AnswersGate(frames, k) && frames[k] == front[k];
      } else {
        assert forall k :: 0 <= k < n ==> frames[k] == front[k];
        assert IsGateAnswer(frames[n]) ==> AnswersGate(frames, n);
      }
    }
  }

  predicate IsGateError(rsp: Bytes) {
    rsp == [TIMEOUT] || rsp == [ERROR] || rsp == [BUSY]
  }

  /** The command was armed at pick `from`, and again after every mismatch taken; all share one deadline. */
  function FpGate(picks: seq<Timed>, from: nat, i: nat, deadline: nat, failures: nat): (r: Wait<Result<Bytes, PairError>>)
    requires from <= i <= |picks| && failures < MAX_FAILURES
    ensures r.Ended? ==> i < r.at <= |picks|
    decreases |picks| - i
  {
    if i == |picks| then Going
    else match picks[i].pick
      case TakeAnswer =>
        (match FirstGateAnswer(Came(picks[from..i]))
         case None => FpGate(picks, from, i + 1, deadline, failures)
         case Some(rsp) =>
           if rsp == [NOT_MATCH] then
             if failures + 1 == MAX_FAILURES then Ended(Err(TooManyMismatches), i + 1)
             else FpGate(picks, i + 1, i + 1, deadline, failures + 1)
           else if IsGateError(rsp) then Ended(Err(GateError(rsp[0])), i + 1)
           else Ended(Ok(rsp), i + 1))
      case TakeDeadline =>
        if picks[i].at >= deadline then Ended(Err(GateTimeout), i + 1) else FpGate(picks, from, i + 1, deadline, failures)
      case _ => FpGate(picks, from, i + 1, deadline, failures)
  }

  /** The answers that `select!` takes before the deadline, whatever they say. */
  function Taken(picks: seq<Timed>, from: nat, i: nat, deadline: nat): seq<Bytes>
    requires from <= i <= |picks|
    decreases |picks| - i
  {
    if i == |picks| then []
    else match picks[i].pick
      case TakeAnswer =>
        (match FirstGateAnswer(Came(picks[from..i]))
         case None => Taken(picks, from, i + 1, deadline)
         case Some(rsp) => [rsp] + Taken(picks, i + 1, i + 1, deadline))
      case TakeDeadline => if picks[i].at >= deadline then [] else Taken(picks, from, i + 1, deadline)
      case _ => Taken(picks, from, i + 1, deadline)
  }

  /** Answer `k` is no mismatch, and nothing but at most two mismatches came before it. */
  predicate DecidesOn(answers: seq<Bytes>, failures: nat, k: nat, value: Bytes) {
    && k < |answers| && failures + k < MAX_FAILURES && answers[k] == value && value != [NOT_MATCH]
    && forall j :: 0 <= j < k ==> answers[j] == [NOT_MATCH]
  }

  ghost predicate Decides(answers: seq<Bytes>, failures: nat, value: Bytes) {
    exists k: nat :: DecidesOn(answers, failures, k, value)
  }

  lemma DecidesRest(answers: seq<Bytes>, failures: nat, value: Bytes)
    requires answers != [] && answers[0] == [NOT_MATCH] && failures < MAX_FAILURES
    ensures Decides(answers, failures, value) <==> failures + 1 < MAX_FAILURES && Decides(answers[1..], failures + 1, value)
  {
    if k: nat :| DecidesOn(answers, failures, k, value) {
      assert DecidesOn(answers[1..], failures + 1, k - 1, value);
    }
    if failures + 1 < MAX_FAILURES && Decides(answers[1..], failures + 1, value) {
      var k: nat :| DecidesOn(answers[1..], failures + 1, k, value);
      assert forall j :: 0 < j <= k ==> answers[j] == answers[1..][j - 1];
      assert DecidesOn(answers, failures, k + 1, value);
    }
  }

  lemma DecidesFirst(answers: seq<Bytes>, failures: nat, value: Bytes)
    requires failures < MAX_FAILURES && (answers == [] || answers[0] != [NOT_MATCH])
    ensures Decides(answers, failures, value) <==> answers != [] && answers[0] == value
  {
    if answers != [] && answers[0] == value {
      assert DecidesOn(answers, failures, 0, value);
    }
  }

  /** Three mismatches in all, those counted before included. */
  predicate GivesUp(answers: seq<Bytes>, failures: nat)
    requires failures < MAX_FAILURES
  {
    var left := MAX_FAILURES - failures;
    |answers| >= left && forall j :: 0 <= j < left ==> answers[j] == [NOT_MATCH]
  }

  lemma GivesUpRest(answers: seq<Bytes>, failures: nat)
    requires answers != [] && answers[0] == [NOT_MATCH] && failures < MAX_FAILURES
    ensures GivesUp(answers, failures) <==> failures + 1 == MAX_FAILURES || GivesUp(answers[1..], failures + 1)
  {
    if failures + 1 < MAX_FAILURES && GivesUp(answers[1..], failures + 1) {
      assert forall j :: 0 < j < MAX_FAILURES - failures ==> answers[j] == answers[1..][j - 1];
    }
  }

  /** What the deciding answer comes to. */
  function DecisionOf(value: Bytes): Result<Bytes, PairError> {
    if value == [TIMEOUT] || value == [ERROR] || value == [BUSY] then Err(GateError(value[0])) else Ok(value)
  }

  /**
   * The gate ends with exactly the first answer taken that is no mismatch, if at most two came before it, and passes unless that
   * is a timeout, an error or a busy device; it gives up exactly on three mismatches ahead of any other answer.
   */
  lemma {:induction false} FpGateDecides(picks: seq<Timed>, from: nat, i: nat, deadline: nat, failures: nat, value: Bytes)
    requires from <= i <= |picks| && failures < MAX_FAILURES
    ensures var r, answers := FpGate(picks, from, i, deadline, failures), Taken(picks, from, i, deadline);
      && (r.Ended? && r.value == DecisionOf(value) <==> Decides(answers, failures, value))
      && (r.Ended? && r.value == Err(TooManyMismatches) <==> GivesUp(answers, failures))
    decreases |picks| - i
  {
    hide FirstGateAnswer, Came, Decides;
    if i == |picks| {
      DecidesFirst([], failures, value);
    } else {
      var answers := Taken(picks, from, i, deadline);
      var answer := FirstGateAnswer(Came(picks[from..i]));
      if picks[i].pick.TakeAnswer? && answer.Some? {
        assert answers[0] == answer.value && answers[1..] == Taken(picks, i + 1, i + 1, deadline);
        if answer.value == [NOT_MATCH] {
          DecidesRest(answers, failures, value);
          GivesUpRest(answers, failures);
          hide GivesUp;
          if failures + 1 < MAX_FAILURES {
            FpGateDecides(picks, i + 1, i + 1, deadline, failures + 1, value);
          }
        } else {
          DecidesFirst(answers, failures, value);
        }
      } else if picks[i].pick.TakeDeadline? && picks[i].at >= deadline {
        DecidesFirst([], failures, value);
      } else {
        FpGateDecides(picks, from, i + 1, deadline, failures, value);
      }
    }
  }

  /** `f` came in alone since the command was armed, and its answer is there to take. */
  lemma OneAnswerTaken(picks: seq<Timed>, i: nat, deadline: nat, f: Frame)
    requires i + 2 <= |picks| && picks[i].pick == TakeFrame(f) && picks[i + 1].pick == TakeAnswer
    requires f.bytes != [] && !IsAsync(f.bytes) && f.bytes[0] != 0x10
    ensures Taken(picks, i, i, deadline) == [f.bytes] + Taken(picks, i + 2, i + 2, deadline)
  {
    assert picks[i..i + 1] == [picks[i]];
    assert picks[i..i + 1][..0] == [];
    assert Came([picks[i]]) == [f];
    assert FirstGateAnswer([f]) == Some(f.bytes);
    hide FirstGateAnswer, Came;
    assert Taken(picks, i, i, deadline) == Taken(picks, i, i + 1, deadline);
  }

  /** Mismatches do not move the deadline, and the gate never times out before it. */
  lemma {:induction false} FpGateIsBounded(picks: seq<Timed>, from: nat, i: nat, deadline: nat, failures: nat)
    requires from <= i <= |picks| && failures < MAX_FAILURES
    ensures var r := FpGate(picks, from, i, deadline, failures);
      && (r.Ended? && r.value == Err(GateTimeout) ==> picks[r.at - 1].at >= deadline)
      && (forall k :: i <= k < (if r.Ended? then r.at - 1 else |picks|) && picks[k].pick.TakeDeadline? ==> picks[k].at < deadline)
    decreases |picks| - i
  {
    hide FirstGateAnswer, Came;
    if i < |picks| {
      FpGateIsBounded(picks, from, i + 1, deadline, failures);
      if failures + 1 < MAX_FAILURES {
        FpGateIsBounded(picks, i + 1, i + 1, deadline, failures + 1);
      }
    }
  }

  predicate GateState(l: Link, frames: seq<Frame>) {
    && !l.gatePending && !l.authPending && l.pairFpGate && !l.gate.armed && !l.auth.armed && !l.buttonPending && !l.button.armed
    && l.response == match FirstGateAnswer(frames) case None => Oneshot(true, Waiting) case Some(a) => Oneshot(false, Got(a))
  }

  lemma GateStateNext(l: Link, frames: seq<Frame>, f: Frame)
    requires GateState(l, frames)
    ensures GateState(Route(l, f).link, frames + [f])
  {
    assert (frames + [f])[..|frames|] == frames;
    assert Route(l, f).link == if IsGateAnswer(f) then l.(response := l.response.Send(f.bytes)) else l;
    hide Route, IsGateAnswer;
  }

  method WaitPairFpGate(state: BleState, picks: seq<Timed>, start: nat) returns (r: Wait<Result<Bytes, PairError>>)
    requires state.View().Plain()
    modifies state
    ensures r == FpGate(picks, 0, 0, start + GATE_WINDOW, 0)
    ensures r.Ended? ==> state.View().Plain()
  {
    state.pairFpGate, state.failures := true, 0;
    r := WaitForTouch(state, picks, start + GATE_WINDOW);
    if r.Ended? {
      state.pairFpGate := false;
    }
  }

  method WaitForTouch(state: BleState, picks: seq<Timed>, deadline: nat) returns (r: Wait<Result<Bytes, PairError>>)
    requires GateState(state.View().(response := Oneshot(true, Waiting)), []) && state.failures == 0
    modifies state
    ensures r == FpGate(picks, 0, 0, deadline, 0)
    ensures exists frames :: GateState(state.View(), frames)
  {
    state.response := Oneshot(true, Waiting);
    var from, failures := 0, 0;
    for i := 0 to |picks|
      invariant from <= i && failures < MAX_FAILURES
      invariant GateState(state.View(), Came(picks[from..i]))
      invariant FpGate(picks, 0, 0, deadline, 0) == FpGate(picks, from, i, deadline, failures)
    {
      CameNext(picks, from, i);
      hide Came, FirstGateAnswer;
      match picks[i].pick {
      case TakeAnswer =>
        if state.response.rx.Got? {
          var rsp := state.response.rx.value;
          if |rsp| == 1 && rsp[0] == NOT_MATCH {
            failures := failures + 1;
            if failures >= MAX_FAILURES {
              return Ended(Err(TooManyMismatches), i + 1);
            }
            state.response, from := Oneshot(true, Waiting), i + 1;
          } else if |rsp| == 1 && (rsp[0] == TIMEOUT || rsp[0] == ERROR || rsp[0] == BUSY) {
            return Ended(Err(GateError(rsp[0])), i + 1);
          } else {
            return Ended(Ok(rsp), i + 1);
          }
        }
      case TakeFrame(frame) =>
        GateStateNext(state.View(), Came(picks[from..i]), frame);
        hide Route;
        var _ := state.RouteNotification(frame);
      case TakeDeadline =>
        if picks[i].at >= deadline {
          return Ended(Err(GateTimeout), i + 1);
        }
      case TakeButton =>
      }
    }
    return Going;
  }

  // ---- The attempts ----

  /** What the device does in one attempt; only the parts the attempt gets to are used. */
  datatype Attempt = Attempt(init: Result<Bytes, Failure>, start: nat, picks: seq<Timed>, confirm: Result<Bytes, Failure>)

  datatype Stored = Stored(devicePubkey: Bytes, sharedKey: Bytes)

  function Outcome<T>(w: Wait<T>): Option<T> {
    if w.Ended? then Some(w.value) else None
  }

  predicate WaitsForButton(a: Attempt) {
    a.init == Ok([PAIR_INIT, WAIT_BUTTON])
  }

  /** The answer an attempt goes on with, once the device's button or finger has been waited for; none while it still waits. */
  function Response(a: Attempt): Option<Result<Bytes, PairError>> {
    match a.init
    case Err(e) => Some(Err(Device(e)))
    case Ok(rsp) =>
      if rsp == [PAIR_INIT, NEEDS_RESET] then Some(Err(NeedsReset))
      else if rsp == [PAIR_INIT, WAIT_BUTTON] then Outcome(ButtonWait(a.picks, 0, Opening(a.start)))
      else if rsp == [WAIT_FP] then Outcome(FpGate(a.picks, 0, 0, a.start + GATE_WINDOW, 0))
      else Some(Ok(rsp))
  }

  lemma NeverIncomplete(a: Attempt)
    ensures Response(a) != Some(Err(ParamsIncomplete))
  {
    EndsOnTurn(a.picks, 0, a.start);
    GateErrors(a.picks, 0, 0, a.start + GATE_WINDOW, 0);
    hide ButtonWait, FpGate;
  }

  lemma {:induction false} GateErrors(picks: seq<Timed>, from: nat, i: nat, deadline: nat, failures: nat)
    requires from <= i <= |picks| && failures < MAX_FAILURES
    ensures var r := FpGate(picks, from, i, deadline, failures); r.Ended? ==> r.value != Err(ParamsIncomplete)
    decreases |picks| - i
  {
    hide FirstGateAnswer, Came;
    if i < |picks| {
      GateErrors(picks, from, i + 1, deadline, failures);
      if failures + 1 < MAX_FAILURES {
        GateErrors(picks, i + 1, i + 1, deadline, failures + 1);
      }
    }
  }

  /** What the answer to PAIR_INIT leads to: the button wait on `[0x30, 0xF0]`, the fingerprint gate on `[0x11]`, a refusal on `[0x30, 0xF1]`. */
  lemma InitLeadsTo(a: Attempt, value: Bytes, error: PairError)
    ensures a.init == Ok([0x30, 0xF0]) ==>
      && (Response(a) == Some(Ok(value)) <==> exists k :: ButtonEnds(a.picks, a.start, k, Ok(value)) && NoEndBefore(a.picks, a.start, 0, k))
      && (Response(a) == Some(Err(error)) <==> exists k :: ButtonEnds(a.picks, a.start, k, Err(error)) && NoEndBefore(a.picks, a.start, 0, k))
    ensures a.init == Ok([0x11]) ==>
      && (Response(a) == Some(DecisionOf(value)) <==> Decides(Taken(a.picks, 0, 0, a.start + 30_000), 0, value))
      && (Response(a) == Some(Err(TooManyMismatches)) <==> GivesUp(Taken(a.picks, 0, 0, a.start + 30_000), 0))
    ensures a.init == Ok([0x30, 0xF1]) ==> Response(a) == Some(Err(NeedsReset))
    ensures a.init.Ok? && a.init.value !in {[0x30, 0xF0], [0x30, 0xF1], [0x11]} ==> Response(a) == Some(Ok(a.init.value))
  {
    hide ButtonWait, FpGate, ButtonEnds, NoEndBefore, Decides, GivesUp, DecisionOf, Taken;
    if a.init == Ok([0x30, 0xF0]) {
      ResponseIsButtons(a, Ok(value));
      ResponseIsButtons(a, Err(error));
    }
    FpGateDecides(a.picks, 0, 0, a.start + GATE_WINDOW, 0, value);
  }

  lemma ResponseIsButtons(a: Attempt, r: Result<Bytes, PairError>)
    requires a.init == Ok([0x30, 0xF0])
    ensures Response(a) == Some(r) <==> exists k :: ButtonEnds(a.picks, a.start, k, r) && NoEndBefore(a.picks, a.start, 0, k)
  {
    var w := ButtonWait(a.picks, 0, Opening(a.start));
    hide ButtonWait, ButtonEnds, NoEndBefore;
    if w.Ended? {
      ButtonWaitIff(a.picks, a.start, w.at - 1, r);
    }
    if k :| ButtonEnds(a.picks, a.start, k, r) && NoEndBefore(a.picks, a.start, 0, k) {
      ButtonWaitIff(a.picks, a.start, k, r);
    }
  }

  /** Refused for the connection parameters, at once or after the wait: the one outcome worth another attempt. */
  predicate Rejected(a: Attempt) {
    Response(a) == Some(Ok([CONN_PARAMS_REJECTED]))
  }

  /** `[0x30][33-byte key]`, then `[0x31][0x00]`, and a secret to share. */
  predicate Exchanges(rsp: Bytes, confirm: Result<Bytes, Failure>, derive: Bytes -> Option<Bytes>) {
    && |rsp| >= 1 + KEY_LEN && rsp[0] == PAIR_INIT
    && confirm.Ok? && |confirm.value| >= 2 && confirm.value[0] == PAIR_CONFIRM && confirm.value[1] == OK
    && derive(rsp[1..1 + KEY_LEN]).Some?
  }

  predicate Completes(a: Attempt, derive: Bytes -> Option<Bytes>) {
    match Response(a)
    case Some(Ok(rsp)) => Exchanges(rsp, a.confirm, derive)
    case _ => false
  }

  function Secret(a: Attempt, derive: Bytes -> Option<Bytes>): Stored
    requires Completes(a, derive)
  {
    var key := Response(a).value.value[1..1 + KEY_LEN];
    Stored(key, derive(key).value)
  }

  /** What one attempt comes to: nothing yet, a pairing to store, or an error. */
  predicate ComesTo(a: Attempt, derive: Bytes -> Option<Bytes>, r: Option<Result<Stored, PairError>>) {
    && (r.None? <==> Response(a).None?)
    && (r.Some? && r.value.Ok? <==> Completes(a, derive))
    && (r.Some? && r.value.Ok? ==> r.value.value == Secret(a, derive))
  }

  /** An attempt pairs with exactly such answers: `[0x30][33-byte key]`, then `[0x31][0x00]`; its key and the secret are what is kept. */
  lemma CompletesIff(a: Attempt, derive: Bytes -> Option<Bytes>, key: Bytes, secret: Bytes)
    ensures Completes(a, derive) && Secret(a, derive) == Stored(key, secret) <==>
      exists rsp, ack ::
        && Response(a) == Some(Ok(rsp)) && a.confirm == Ok(ack)
        && |rsp| >= 34 && rsp[0] == 0x30 && rsp[1..34] == key && derive(key) == Some(secret)
        && |ack| >= 2 && ack[0] == 0x31 && ack[1] == 0x00
    ensures Rejected(a) <==> Response(a) == Some(Ok([0xE1]))
  {
    hide Response;
  }

  predicate AllRejected(attempts: nat -> Attempt, n: nat) {
    forall k :: 0 <= k < n ==> Rejected(attempts(k))
  }

  /** The SLOT_STATUS answer read before the first PAIR_INIT; no answer counts as an empty one. */
  predicate SecondHost(status: Result<Bytes, Failure>) {
    SlotClear.ParseSlotStatus(if status.Ok? then status.value else []).IsSecondHost()
  }

  /** The progress the first `sent` attempts showed: one stage each time the device asked for its button. */
  function Shown(attempts: nat -> Attempt, sent: nat, stage: Progress): seq<Progress> {
    if sent == 0 then []
    else Shown(attempts, sent - 1, stage) + if WaitsForButton(attempts(sent - 1)) then [stage] else []
  }

  lemma ShownNext(attempts: nat -> Attempt, n: nat, stage: Progress)
    ensures Shown(attempts, n + 1, stage) == Shown(attempts, n, stage) + if WaitsForButton(attempts(n)) then [stage] else []
    ensures AllRejected(attempts, n + 1) <==> AllRejected(attempts, n) && Rejected(attempts(n))
  {
    hide Rejected, WaitsForButton;
  }

  class Host {
    var pairing: Option<Stored>
    var saved: Option<Stored>       // the pairing file
    var verified: bool
    var reportsUnpaired: bool
    var shown: seq<Progress>        // every progress set, the last one in force

    constructor (pairing: Option<Stored>)
      ensures this.pairing == pairing && saved == pairing && shown == [Idle]
    {
      this.pairing, saved, verified, reportsUnpaired, shown := pairing, pairing, false, false, [Idle];
    }

    /** One attempt, up to the answer that carries the device's key. */
    method Initiate(state: BleState, a: Attempt, stage: Progress) returns (r: Option<Result<Bytes, PairError>>)
      requires state.View().Plain()
      modifies state, this`shown
      ensures r == Response(a) && (r.Some? ==> state.View().Plain())
      ensures shown == old(shown) + if WaitsForButton(a) then [stage] else []
    {
      hide ButtonWait, FpGate;
      if a.init.Err? {
        return Some(Err(Device(a.init.error)));
      }
      var rsp := a.init.value;
      if |rsp| == 1 && rsp[0] == CONN_PARAMS_REJECTED {
        return Some(Ok(rsp));
      }
      if |rsp| == 2 && rsp[0] == PAIR_INIT && rsp[1] == NEEDS_RESET {
        return Some(Err(NeedsReset));
      }
      if |rsp| == 2 && rsp[0] == PAIR_INIT && rsp[1] == WAIT_BUTTON {
        assert rsp == [PAIR_INIT, WAIT_BUTTON];
        shown := shown + [stage];
        var end := WaitPairButton(state, a.picks, a.start);
        return Outcome(end);
      }
      if |rsp| == 1 && rsp[0] == WAIT_FP {
        assert rsp == [WAIT_FP];
        var end := WaitPairFpGate(state, a.picks, a.start);
        return Outcome(end);
      }
      return Some(Ok(rsp));
    }

    /**
     * `sent` counts the PAIR_INITs. Only parameter rejections are retried, at most three times and each after a pause; the
     * last attempt alone decides, and only a complete one stores a pairing. There is no result while that attempt still waits.
     */
    method DoPair(state: BleState, status: Result<Bytes, Failure>, attempts: nat -> Attempt, derive: Bytes -> Option<Bytes>, saveFails: bool)
      returns (result: Option<Result<(), PairError>>, sent: nat, pauses: nat)
      requires state.View().Plain()
      modifies state, this
      ensures 1 <= sent <= 4 && pauses == sent - 1
      ensures AllRejected(attempts, sent - 1)
      ensures Rejected(attempts(sent - 1)) ==> sent == 4
      ensures result.None? <==> Response(attempts(sent - 1)).None?
      ensures result == Some(Ok(())) <==> Completes(attempts(sent - 1), derive)
      ensures pairing == if result == Some(Ok(())) then Some(Secret(attempts(sent - 1), derive)) else old(pairing)
      ensures saved == if result == Some(Ok(())) && !saveFails then pairing else old(saved)
      ensures if result == Some(Ok(())) then verified && !reportsUnpaired
              else verified == old(verified) && reportsUnpaired == old(reportsUnpaired)
      ensures shown == old(shown) + Shown(attempts, sent, if SecondHost(status) then WaitFp else WaitButton)
                       + match result case None => [] case Some(Ok(_)) => [Done] case Some(Err(_)) => [Failed]
    {
      var stage := if SecondHost(status) then WaitFp else WaitButton;
      var last: Option<Result<Stored, PairError>>;
      last, sent, pauses := Attempts(state, attempts, stage, derive);
      hide Response, ButtonWait, FpGate, Shown;
      if last.None? {
        return None, sent, pauses;
      }
      if last.value.Err? {
        shown := shown + [Failed];
        return Some(Err(last.value.error)), sent, pauses;
      }
      pairing := Some(last.value.value);
      if !saveFails {
        saved := pairing;
      }
      reportsUnpaired, verified := false, true;
      shown := shown + [Done];
      return Some(Ok(())), sent, pauses;
    }

    /** One attempt; `ParamsIncomplete` is what a rejection comes to if nothing follows it. */
    method TryOnce(state: BleState, a: Attempt, stage: Progress, derive: Bytes -> Option<Bytes>) returns (r: Option<Result<Stored, PairError>>)
      requires state.View().Plain()
      modifies state, this`shown
      ensures r.Some? ==> state.View().Plain()
      ensures ComesTo(a, derive, r) && (r == Some(Err(ParamsIncomplete)) <==> Rejected(a))
      ensures shown == old(shown) + if WaitsForButton(a) then [stage] else []
    {
      NeverIncomplete(a);
      var answer := Initiate(state, a, stage);
      hide Response, WaitsForButton;
      if answer.None? {
        return None;
      }
      if answer.value.Err? {
        return Some(Err(answer.value.error));
      }
      var rsp := answer.value.value;
      if |rsp| == 1 && rsp[0] == CONN_PARAMS_REJECTED {
        assert rsp == [CONN_PARAMS_REJECTED];
        return Some(Err(ParamsIncomplete));
      }
      var end := Exchange(rsp, a.confirm, derive);
      return Some(end);
    }

    /** The attempts up to the one that decides, and the pairing it would store. */
    method Attempts(state: BleState, attempts: nat -> Attempt, stage: Progress, derive: Bytes -> Option<Bytes>)
      returns (last: Option<Result<Stored, PairError>>, sent: nat, pauses: nat)
      requires state.View().Plain()
      modifies state, this`shown
      ensures 1 <= sent <= 1 + RETRIES && pauses == sent - 1
      ensures AllRejected(attempts, sent - 1)
      ensures Rejected(attempts(sent - 1)) ==> sent == 1 + RETRIES
      ensures ComesTo(attempts(sent - 1), derive, last)
      ensures shown == old(shown) + Shown(attempts, sent, stage)
    {
      var retries: nat := RETRIES;
      sent, pauses := 0, 0;
      while true
        invariant sent == pauses == RETRIES - retries && retries <= RETRIES
        invariant AllRejected(attempts, sent)
        invariant state.View().Plain()
        invariant shown == old(shown) + Shown(attempts, sent, stage)
        decreases retries
      {
        ShownNext(attempts, sent, stage);
        hide *;
        last := TryOnce(state, attempts(sent), stage, derive);
        sent := sent + 1;
        if last != Some(Err(ParamsIncomplete)) || retries == 0 {
          return;
        }
        retries, pauses := retries - 1, pauses + 1;
      }
    }

    /** The key exchange that follows an answer which is no rejection. */
    method Exchange(rsp: Bytes, confirm: Result<Bytes, Failure>, derive: Bytes -> Option<Bytes>) returns (r: Result<Stored, PairError>)
      ensures r.Ok? <==> Exchanges(rsp, confirm, derive)
      ensures r != Err(ParamsIncomplete)
      ensures r.Ok? ==> r.value.devicePubkey == rsp[1..1 + KEY_LEN] && Some(r.value.sharedKey) == derive(r.value.devicePubkey)
    {
      if |rsp| < 1 + KEY_LEN || rsp[0] != PAIR_INIT {
        return Err(BadInit);
      }
      if confirm.Err? {
        return Err(Device(confirm.error));
      }
      var ack := confirm.value;
      if |ack| < 2 || ack[0] != PAIR_CONFIRM || ack[1] != OK {
        return Err(BadConfirm);
      }
      var secret := derive(rsp[1..1 + KEY_LEN]);
      if secret.None? {
        return Err(NoSecret);
      }
      return Ok(Stored(rsp[1..1 + KEY_LEN], secret.value));
    }
  }
}
