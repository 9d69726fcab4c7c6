/** The BLE worker and its wait loops (`ble.rs`), against the functions of module Link. */
module Worker {
  import opened Wire
  import opened Link

  /** What `select!` picked: the armed oneshot, a notification, a cancel, or the deadline. */
  datatype Choice = Resolved | Notified(frame: Frame) | Cancelled | Expired

  /** A wait over a finite stretch of choices: still going, or ended after `at` of them. */
  datatype Wait<T> = Going | Ended(value: T, at: nat)

  datatype Failure = NotWritten | TimedOut | EmptyAnswer | Refused(status: byte) | GateCancelled | GateTimedOut | GateFailed(error: Option<byte>)

  datatype Reply = Reply(status: byte, payload: Bytes)

  function Frames(choices: seq<Choice>): seq<Frame> {
    if choices == [] then []
    else
      var front, last := Frames(choices[..|choices| - 1]), choices[|choices| - 1];
      if last.Notified? then front + [last.frame] else front
  }

  // ---- What each wait yields, in terms of the frames it saw ----

  /** A command waits for its first answer; a `Resolved` pick before that is not ready and is passed over. */
  function Answer(choices: seq<Choice>, from: nat, i: nat): (r: Wait<Result<Bytes, Failure>>)
    requires from <= i <= |choices|
    ensures r.Ended? ==> i < r.at <= |choices| && !choices[r.at - 1].Cancelled?
    decreases |choices| - i
  {
    if i == |choices| then Going
    else match choices[i]
      case Resolved =>
        (match FirstAnswer(Frames(choices[from..i]))
         case Some(answer) => Ended(Ok(answer), i + 1)
         case None => Answer(choices, from, i + 1))
      case Expired => Ended(Err(TimedOut), i + 1)
      case _ => Answer(choices, from, i + 1)
  }

  function GateWait(choices: seq<Choice>, from: nat, i: nat): (r: Wait<Result<Reply, Failure>>)
    requires from <= i <= |choices|
    ensures r.Ended? ==> i < r.at <= |choices|
    decreases |choices| - i
  {
    if i == |choices| then Going
    else match choices[i]
      case Resolved =>
        (match Verdict(Frames(choices[from..i]))
         case Some(result) => Ended(if result.passed then Ok(Reply(OK, [OK])) else Err(GateFailed(result.error)), i + 1)
         case None => GateWait(choices, from, i + 1))
      case Cancelled => Ended(Err(GateCancelled), i + 1)
      case Expired => Ended(Err(GateTimedOut), i + 1)
      case Notified(_) => GateWait(choices, from, i + 1)
  }

  function AuthWait(choices: seq<Choice>, from: nat, i: nat): (r: Wait<Result<bool, Failure>>)
    requires from <= i <= |choices|
    ensures r.Ended? ==> i < r.at <= |choices|
    decreases |choices| - i
  {
    if i == |choices| then Going
    else match choices[i]
      case Resolved =>
        (match Verdict(Frames(choices[from..i]))
         case Some(result) => Ended(Ok(result.passed), i + 1)
         case None => AuthWait(choices, from, i + 1))
      case Cancelled => Ended(Ok(false), i + 1)
      case Expired => Ended(Ok(false), i + 1)
      case Notified(_) => AuthWait(choices, from, i + 1)
  }

  /** The command and, when the device asks for a finger, the gate that follows it. */
  function Gated(choices: seq<Choice>): Wait<Result<Reply, Failure>> {
    match Answer(choices, 0, 0)
    case Going => Going
    case Ended(Err(e), at) => Ended(Err(e), at)
    case Ended(Ok(answer), at) =>
      if answer == [] then Ended(Err(EmptyAnswer), at)
      else if answer[0] == OK then Ended(Ok(Reply(OK, answer[1..])), at)
      else if answer[0] != WAIT_FP && answer[0] != GATE_APPROVED then Ended(Err(Refused(answer[0])), at)
      else GateWait(choices, at, at)
  }

  function Authenticated(choices: seq<Choice>): Wait<Result<bool, Failure>> {
    match Answer(choices, 0, 0)
    case Going => Going
    case Ended(Err(e), at) => Ended(Err(e), at)
    case Ended(Ok(answer), at) =>
      if answer == [] then Ended(Err(EmptyAnswer), at)
      else if answer[0] == OK then Ended(Ok(true), at)
      else if answer[0] != WAIT_FP then Ended(Err(Refused(answer[0])), at)
      else AuthWait(choices, at, at)
  }

  // ---- What that means ----

  /** Some frame of `choices[from..to]` is a success, and nothing before it settled the wait. */
  ghost predicate GrantedWithin(choices: seq<Choice>, from: nat, to: nat)
    requires from <= to <= |choices|
  {
    var frames := Frames(choices[from..to]);
    exists k: nat :: FirstSettles(frames, k) && IsGrant(frames[k])
  }

  lemma {:induction false} GatePassesOnGrant(choices: seq<Choice>, from: nat, i: nat)
    requires from <= i <= |choices|
    ensures var r := GateWait(choices, from, i);
      r.Ended? && r.value.Ok? ==> GrantedWithin(choices, from, r.at - 1)
    decreases |choices| - i
  {
    if i < |choices| {
      GatePassesOnGrant(choices, from, i + 1);
      if choices[i].Resolved? {
        VerdictMeans(Frames(choices[from..i]));
      }
      hide Frames, Verdict, Settles;
    }
  }

  lemma {:induction false} AuthPassesOnGrant(choices: seq<Choice>, from: nat, i: nat)
    requires from <= i <= |choices|
    ensures var r := AuthWait(choices, from, i);
      r.Ended? && r.value == Ok(true) ==> GrantedWithin(choices, from, r.at - 1)
    decreases |choices| - i
  {
    if i < |choices| {
      AuthPassesOnGrant(choices, from, i + 1);
      if choices[i].Resolved? {
        VerdictMeans(Frames(choices[from..i]));
      }
      hide Frames, Verdict, Settles;
    }
  }

  lemma {:induction false} AnswerIsFirst(choices: seq<Choice>, from: nat, i: nat)
    requires from <= i <= |choices|
    ensures var r := Answer(choices, from, i);
      r.Ended? && r.value.Ok? ==>
        FirstAnswer(Frames(choices[from..r.at - 1])) == Some(r.value.value) && r.value.value != [] && !IsAsync(r.value.value)
    decreases |choices| - i
  {
    if i < |choices| {
      AnswerIsFirst(choices, from, i + 1);
      if choices[i].Resolved? {
        FirstAnswerMeans(Frames(choices[from..i]));
      }
      hide Frames, FirstAnswer, IsAsync, IsAnswer;
    }
  }

  /** The first answer was a success, or it was taken for a wait that a success frame settled by `end`. */
  ghost predicate DeviceAgreed(choices: seq<Choice>, end: nat) {
    match Answer(choices, 0, 0)
    case Ended(Ok(answer), at) =>
      && answer != [] && !IsAsync(answer)
      && (answer[0] == OK || (at <= end <= |choices| && GrantedWithin(choices, at, end)))
    case _ => false
  }

  /** A gated command is carried out only on the device's word. */
  lemma GatedNeedsGrant(choices: seq<Choice>, reply: Reply, end: nat)
    requires Gated(choices) == Ended(Ok(reply), end + 1)
    ensures DeviceAgreed(choices, end)
  {
    var first := Answer(choices, 0, 0);
    AnswerIsFirst(choices, 0, 0);
    hide Answer, GateWait, GrantedWithin, IsAsync, FirstAnswer, Frames;
    if first.Ended? {
      GatePassesOnGrant(choices, first.at, first.at);
    }
  }

  /** So is an authentication; a cancel, a deadline, a third mismatch or an error never yields `true`. */
  lemma AuthNeedsGrant(choices: seq<Choice>, end: nat)
    requires Authenticated(choices) == Ended(Ok(true), end + 1)
    ensures DeviceAgreed(choices, end)
  {
    var first := Answer(choices, 0, 0);
    AnswerIsFirst(choices, 0, 0);
    hide Answer, AuthWait, GrantedWithin, IsAsync, FirstAnswer, Frames;
    if first.Ended? {
      AuthPassesOnGrant(choices, first.at, first.at);
    }
  }

  // ---- Exactly how each wait ends ----

  /** No choice before `end` ends a command's wait. */
  predicate Unanswered(choices: seq<Choice>, end: nat)
    requires end <= |choices|
  {
    forall k :: 0 <= k < end ==> !choices[k].Expired? && (choices[k].Resolved? ==> FirstAnswer(Frames(choices[0..k])).None?)
  }

  predicate AnsweredAt(choices: seq<Choice>, end: nat, value: Result<Bytes, Failure>)
    requires end < |choices|
  {
    match choices[end]
    case Resolved => FirstAnswer(Frames(choices[0..end])).Some? && value == Ok(FirstAnswer(Frames(choices[0..end])).value)
    case Expired => value == Err(TimedOut)
    case _ => false
  }

  /** The command's wait ends on the first pick of an answer that is in, with that answer, or of the deadline, with a timeout. */
  lemma {:induction false} AnswerEnds(choices: seq<Choice>, i: nat)
    requires i <= |choices| && Unanswered(choices, i)
    ensures var r := Answer(choices, 0, i);
      if r.Going? then Unanswered(choices, |choices|) else Unanswered(choices, r.at - 1) && AnsweredAt(choices, r.at - 1, r.value)
    decreases |choices| - i
  {
    hide FirstAnswer, Frames;
    if i < |choices| {
      if Unanswered(choices, i + 1) {
        AnswerEnds(choices, i + 1);
      }
    }
  }

  /** No choice before `end` ends a gate that opened at `from`. */
  predicate StillOpen(choices: seq<Choice>, from: nat, end: nat)
    requires from <= end <= |choices|
  {
    forall k :: from <= k < end ==>
      !choices[k].Cancelled? && !choices[k].Expired? && (choices[k].Resolved? ==> Verdict(Frames(choices[from..k])).None?)
  }

  /** The gate ends at pick `end`, on a success frame that nothing before it had settled. */
  ghost predicate GateGrants(choices: seq<Choice>, from: nat, end: nat) {
    from <= end < |choices| && choices[end].Resolved? && StillOpen(choices, from, end) && GrantedWithin(choices, from, end)
  }

  lemma VerdictPasses(frames: seq<Frame>)
    ensures Verdict(frames).Some? && Verdict(frames).value.passed <==> exists k: nat :: FirstSettles(frames, k) && IsGrant(frames[k])
  {
    VerdictMeans(frames);
    hide Verdict;
    if Verdict(frames).Some? {
      var k: nat :| FirstSettles(frames, k) && Verdict(frames) == Some(ResultOf(frames[k]));
      if j: nat :| FirstSettles(frames, j) && IsGrant(frames[j]) {
        assert j == k;
      }
    }
  }

  /** Once a choice has ended the gate, no later one can grant it. */
  lemma NoLaterGrant(choices: seq<Choice>, from: nat, i: nat)
    requires from <= i < |choices| && StillOpen(choices, from, i) && !StillOpen(choices, from, i + 1)
    ensures forall end: nat :: GateGrants(choices, from, end) ==> end == i
  {
    forall end: nat | GateGrants(choices, from, end) ensures end == i {
      VerdictPasses(Frames(choices[from..end]));
      hide Verdict, Frames;
    }
  }

  lemma {:induction false} GateWaitIffGrants(choices: seq<Choice>, from: nat, i: nat)
    requires from <= i <= |choices| && StillOpen(choices, from, i)
    ensures var r := GateWait(choices, from, i);
      r.Ended? && r.value.Ok? <==> exists end: nat :: GateGrants(choices, from, end)
    decreases |choices| - i
  {
    if i == |choices| {
      forall end: nat ensures !GateGrants(choices, from, end) {
        if from <= end < |choices| {
          VerdictPasses(Frames(choices[from..end]));
        }
        hide Verdict, Frames;
      }
    } else if StillOpen(choices, from, i + 1) {
      GateWaitIffGrants(choices, from, i + 1);
      hide Frames, Verdict, GateGrants;
      assert choices[i].Notified? || choices[i].Resolved?;
    } else {
      NoLaterGrant(choices, from, i);
      VerdictPasses(Frames(choices[from..i]));
      hide Frames, Verdict, StillOpen, FirstSettles, Settles;
      assert GateGrants(choices, from, i) <==> choices[i].Resolved? && GrantedWithin(choices, from, i);
    }
  }

  /** The device, or a frame taken for its word, says yes: at once, or after asking for a finger. */
  ghost predicate GrantArrives(choices: seq<Choice>) {
    match Answer(choices, 0, 0)
    case Ended(Ok(answer), at) =>
      answer != [] &&
      (answer[0] == OK || ((answer[0] == WAIT_FP || answer[0] == GATE_APPROVED) && exists end: nat :: GateGrants(choices, at, end)))
    case _ => false
  }

  /** A gated command succeeds exactly on the device's word. */
  lemma GatedIffGrant(choices: seq<Choice>)
    ensures Gated(choices).Ended? && Gated(choices).value.Ok? <==> GrantArrives(choices)
  {
    var first := Answer(choices, 0, 0);
    hide Answer;
    if first.Ended? {
      assert StillOpen(choices, first.at, first.at);
      hide GateWait, GateGrants, StillOpen;
      GateWaitIffGrants(choices, first.at, first.at);
    }
  }

  /** Pick `end` is the first to end the wait that opened at `from`, without a success: a cancel, the deadline or a failure. */
  ghost predicate Denies(choices: seq<Choice>, from: nat, end: nat) {
    && from <= end < |choices| && StillOpen(choices, from, end) && !choices[end].Notified?
    && (choices[end].Resolved? ==> Verdict(Frames(choices[from..end])).Some? && !GrantedWithin(choices, from, end))
  }

  /** An authentication's wait, pick by pick: still going, granted, or denied, and for which of the reasons. */
  lemma {:induction false} AuthWaitEnds(choices: seq<Choice>, from: nat, i: nat)
    requires from <= i <= |choices| && StillOpen(choices, from, i)
    ensures match AuthWait(choices, from, i)
      case Going => StillOpen(choices, from, |choices|)
      case Ended(Ok(true), at) => GateGrants(choices, from, at - 1)
      case Ended(Ok(false), at) => Denies(choices, from, at - 1)
      case Ended(Err(_), _) => false
    decreases |choices| - i
  {
    if i < |choices| {
      hide Frames, Verdict, FirstSettles, Settles;
      if StillOpen(choices, from, i + 1) {
        hide GateGrants, Denies;
        AuthWaitEnds(choices, from, i + 1);
      } else {
        AuthEndsHere(choices, from, i);
      }
    }
  }

  lemma AuthEndsHere(choices: seq<Choice>, from: nat, i: nat)
    requires from <= i < |choices| && StillOpen(choices, from, i) && !StillOpen(choices, from, i + 1)
    ensures match AuthWait(choices, from, i)
      case Going => false
      case Ended(Ok(true), at) => at == i + 1 && GateGrants(choices, from, i)
      case Ended(Ok(false), at) => at == i + 1 && Denies(choices, from, i)
      case Ended(Err(_), _) => false
  {
    VerdictPasses(Frames(choices[from..i]));
    hide Frames, Verdict, FirstSettles, Settles;
  }

  /** The error each ending of a gate is reported as. */
  predicate FailsWith(choices: seq<Choice>, from: nat, end: nat, e: Failure)
    requires from <= end < |choices|
  {
    match choices[end]
    case Cancelled => e == GateCancelled
    case Expired => e == GateTimedOut
    case Resolved =>
      (match Verdict(Frames(choices[from..end]))
       case Some(result) => e == GateFailed(result.error)
       case None => false)
    case Notified(_) => false
  }

  /** The gate's wait likewise, with the answer or error of each ending. */
  lemma {:induction false} GateWaitEnds(choices: seq<Choice>, from: nat, i: nat)
    requires from <= i <= |choices| && StillOpen(choices, from, i)
    ensures match GateWait(choices, from, i)
      case Going => StillOpen(choices, from, |choices|)
      case Ended(Ok(reply), at) => GateGrants(choices, from, at - 1) && reply == Reply(OK, [OK])
      case Ended(Err(e), at) => Denies(choices, from, at - 1) && FailsWith(choices, from, at - 1, e)
    decreases |choices| - i
  {
    if i < |choices| {
      hide Frames, Verdict, FirstSettles, Settles;
      if StillOpen(choices, from, i + 1) {
        hide GateGrants, Denies, FailsWith;
        GateWaitEnds(choices, from, i + 1);
      } else {
        GateEndsHere(choices, from, i);
      }
    }
  }

  lemma GateEndsHere(choices: seq<Choice>, from: nat, i: nat)
    requires from <= i < |choices| && StillOpen(choices, from, i) && !StillOpen(choices, from, i + 1)
    ensures match GateWait(choices, from, i)
      case Going => false
      case Ended(Ok(reply), at) => at == i + 1 && GateGrants(choices, from, i) && reply == Reply(OK, [OK])
      case Ended(Err(e), at) => at == i + 1 && Denies(choices, from, i) && FailsWith(choices, from, i, e)
  {
    VerdictPasses(Frames(choices[from..i]));
    hide Frames, Verdict, FirstSettles, Settles;
  }

  /** A wait ends once: what one pick ends, no other does. */
  lemma EndsOnce(choices: seq<Choice>, from: nat, i: nat, j: nat)
    requires GateGrants(choices, from, i) || Denies(choices, from, i)
    requires GateGrants(choices, from, j) || Denies(choices, from, j)
    ensures i == j && !(GateGrants(choices, from, i) && Denies(choices, from, i))
  {
    VerdictPasses(Frames(choices[from..i]));
    VerdictPasses(Frames(choices[from..j]));
    hide Frames, Verdict, FirstSettles, Settles;
  }

  /** The authentication is granted at pick `at - 1`. */
  ghost predicate AuthGrants(choices: seq<Choice>, at: nat) {
    match Answer(choices, 0, 0)
    case Ended(Ok(answer), sent) =>
      answer != [] && if answer[0] == OK then at == sent else answer[0] == WAIT_FP && at > 0 && GateGrants(choices, sent, at - 1)
    case _ => false
  }

  /** It was asked for a finger, and is denied at pick `at - 1`. */
  ghost predicate AuthDenies(choices: seq<Choice>, at: nat) {
    match Answer(choices, 0, 0)
    case Ended(Ok(answer), sent) => answer != [] && answer[0] == WAIT_FP && at > 0 && Denies(choices, sent, at - 1)
    case _ => false
  }

  /** The command got no answer it could go on with. */
  ghost predicate AuthFails(choices: seq<Choice>, at: nat) {
    match Answer(choices, 0, 0)
    case Ended(Ok(answer), sent) => at == sent && (answer == [] || (answer[0] != OK && answer[0] != WAIT_FP))
    case Ended(Err(_), sent) => at == sent
    case Going => false
  }

  /**
   * An authentication yields true exactly on a first answer of success, or on a first answer that asks for a finger and a
   * later pick that finds the frames since then settled by a success, before any cancel, deadline or failure; false exactly
   * on one of those three after being asked; and an error exactly when the first answer is missing or neither.
   */
  lemma AuthIffGrant(choices: seq<Choice>, at: nat)
    ensures Authenticated(choices) == Ended(Ok(true), at) <==> AuthGrants(choices, at)
    ensures Authenticated(choices) == Ended(Ok(false), at) <==> AuthDenies(choices, at)
    ensures Authenticated(choices).Ended? && Authenticated(choices).value.Err? && Authenticated(choices).at == at <==> AuthFails(choices, at)
  {
    var first := Answer(choices, 0, 0);
    if first.Ended? {
      var sent := first.at;
      assert StillOpen(choices, sent, sent);
      hide Answer, AuthWait, GateGrants, Denies, StillOpen;
      AuthWaitEnds(choices, sent, sent);
      var r := AuthWait(choices, sent, sent);
      if at > 0 && (GateGrants(choices, sent, at - 1) || Denies(choices, sent, at - 1)) {
        EndedOnce(choices, sent, at);
      }
    }
  }

  /** A wait with an ending pick has ended there. */
  lemma EndedOnce(choices: seq<Choice>, from: nat, at: nat)
    requires from <= |choices| && at > 0
    requires GateGrants(choices, from, at - 1) || Denies(choices, from, at - 1)
    ensures AuthWait(choices, from, from).Ended? && AuthWait(choices, from, from).at == at
    ensures !(GateGrants(choices, from, at - 1) && Denies(choices, from, at - 1))
  {
    AuthWaitEnds(choices, from, from);
    var r := AuthWait(choices, from, from);
    if r.Ended? {
      hide AuthWait;
      EndsOnce(choices, from, at - 1, r.at - 1);
    } else {
      VerdictPasses(Frames(choices[from..at - 1]));
      hide AuthWait, Frames, Verdict;
    }
  }

  // ---- Single frames ----

  /** A frame comes in, and the wait is looked at. */
  function Notice(frame: Bytes): seq<Choice> {
    [Notified(Frame(frame, false)), Resolved]
  }

  lemma OneFrame(f: Frame)
    ensures Frames([Notified(f)]) == [f]
    ensures FirstAnswer([f]) == if IsAnswer(f) then Some(f.bytes) else None
    ensures Verdict([f]) == if IsGrant(f) || IsFailure(f) then Some(ResultOf(f)) else None
  {
    assert [f][..0] == [] && [Notified(f)][..0] == [];
    assert Frames([]) == [];
  }

  /** The first frame, if it is an answer, is the command's. */
  lemma FirstFrameAnswers(frame: Bytes, rest: seq<Choice>)
    requires IsAnswer(Frame(frame, false))
    ensures Answer(Notice(frame) + rest, 0, 0) == Ended(Ok(frame), 2)
  {
    var c := Notice(frame) + rest;
    OneFrame(Frame(frame, false));
    assert c[0..1] == [Notified(Frame(frame, false))];
    hide Frames, FirstAnswer, IsAnswer;
    assert c[0].Notified? && c[1] == Resolved;
    assert Answer(c, 0, 1) == Ended(Ok(frame), 2);
  }

  /** A command carried out at once hands its payload on, without the status byte. */
  lemma FastReplyCarriesPayload(payload: Bytes, rest: seq<Choice>)
    requires IsAnswer(Frame([0x00] + payload, false))
    ensures Gated(Notice([0x00] + payload) + rest) == Ended(Ok(Reply(0x00, payload)), 2)
  {
    FirstFrameAnswers([0x00] + payload, rest);
    hide Answer, IsAnswer, Notice;
  }

  /** Asked for a finger by 0x11, an authentication is granted by 0x00 and denied by 0x06; so is a gate, which 0x10 opens too. */
  lemma FingerDecides(rest: seq<Choice>)
    ensures Authenticated(Notice([0x11]) + Notice([0x00]) + rest) == Ended(Ok(true), 4)
    ensures Authenticated(Notice([0x11]) + Notice([0x06]) + rest) == Ended(Ok(false), 4)
    ensures Gated(Notice([0x11]) + Notice([0x00]) + rest) == Ended(Ok(Reply(0x00, [0x00])), 4)
    ensures Gated(Notice([0x10]) + Notice([0x06]) + rest) == Ended(Err(GateFailed(Some(0x06))), 4)
  {
    AskedThen([0x11], [0x00], rest);
    AskedThen([0x11], [0x06], rest);
    AskedThen([0x10], [0x06], rest);
    hide Answer, GateWait, AuthWait;
  }

  lemma AskedThen(asked: Bytes, report: Bytes, rest: seq<Choice>)
    requires asked == [0x11] || asked == [0x10]
    requires report == [0x00] || report == [0x06]
    ensures var c := Notice(asked) + Notice(report) + rest;
      && Answer(c, 0, 0) == Ended(Ok(asked), 2)
      && AuthWait(c, 2, 2) == Ended(Ok(report == [0x00]), 4)
      && GateWait(c, 2, 2) == Ended(if report == [0x00] then Ok(Reply(0x00, [0x00])) else Err(GateFailed(Some(report[0]))), 4)
  {
    var c, frame := Notice(asked) + Notice(report) + rest, Frame(report, false);
    assert c == Notice(asked) + (Notice(report) + rest);
    FirstFrameAnswers(asked, Notice(report) + rest);
    OneFrame(frame);
    assert c[2..3] == [Notified(frame)] && c[2] == Notified(frame) && c[3] == Resolved;
    hide Frames, Verdict, Answer;
    assert AuthWait(c, 2, 3) == Ended(Ok(report == [0x00]), 4);
    assert GateWait(c, 2, 3) == Ended(if report == [0x00] then Ok(Reply(0x00, [0x00])) else Err(GateFailed(Some(report[0]))), 4);
  }

  /** Picking one more choice adds at most its frame. */
  lemma FramesNext(choices: seq<Choice>, from: nat, i: nat)
    requires from <= i < |choices|
    ensures choices[from..i + 1][..i - from] == choices[from..i]
    ensures Frames(choices[from..i + 1]) ==
      Frames(choices[from..i]) + if choices[i].Notified? then [choices[i].frame] else []
  {
    assert choices[from..i + 1][..i - from] == choices[from..i];
  }

  lemma RouteNext(l: Link, choices: seq<Choice>, from: nat, i: nat)
    requires from <= i < |choices|
    ensures var before := RouteAll(l, Frames(choices[from..i]));
      RouteAll(l, Frames(choices[from..i + 1])) ==
        if choices[i].Notified? then Route(before, choices[i].frame).link else before
  {
    FramesNext(choices, from, i);
    var front := Frames(choices[from..i]);
    if choices[i].Notified? {
      assert (front + [choices[i].frame])[..|front|] == front;
    } else {
      assert front + [] == front;
    }
  }

  /** A wait that is over on the caller's cancel; that alone makes the worker write GATE_CANCEL to the device. */
  predicate CancelEnds<T>(choices: seq<Choice>, r: Wait<T>) {
    r.Ended? && 0 < r.at <= |choices| && choices[r.at - 1].Cancelled?
  }

  /** Nothing but `l`'s gate or authentication is open. */
  predicate ElsePlain(l: Link) {
    !l.pairFpGate && !l.buttonPending && !l.button.armed
  }

  /** One pass of the gate's `select!`, and what it ends the wait with, if it does. */
  datatype Pass<T> = Pass(link: Link, end: Option<T>)

  function GatePass(l: Link, choice: Choice): Pass<Result<Reply, Failure>> {
    match choice
    case Resolved =>
      if l.gate.rx.Got? then
        var result := l.gate.rx.value;
        Pass(l.(gatePending := false), Some(if result.passed then Ok(Reply(OK, [OK])) else Err(GateFailed(result.error))))
      else Pass(l, None)
    case Notified(frame) => Pass(Route(l, frame).link, None)
    case Cancelled => Pass(l.(gate := l.gate.Drop(), gatePending := false), Some(Err(GateCancelled)))
    case Expired => Pass(l.(gate := l.gate.Drop(), gatePending := false), Some(Err(GateTimedOut)))
  }

  function AuthPass(l: Link, choice: Choice): Pass<Result<bool, Failure>> {
    match choice
    case Resolved => if l.auth.rx.Got? then Pass(l.(authPending := false), Some(Ok(l.auth.rx.value))) else Pass(l, None)
    case Notified(frame) => Pass(Route(l, frame).link, None)
    case Cancelled => Pass(l.(auth := l.auth.Drop(), authPending := false), Some(Ok(false)))
    case Expired => Pass(l.(auth := l.auth.Drop(), authPending := false), Some(Ok(false)))
  }

  /** Pass after pass, the gate wait follows `GateWait`, and it closes what it opened. */
  lemma GatePasses(armed: Link, choices: seq<Choice>, from: nat, i: nat)
    requires GateOpen(armed, 0) && ElsePlain(armed) && from <= i < |choices|
    ensures var p := GatePass(RouteAll(armed, Frames(choices[from..i])), choices[i]);
      match p.end
      case Some(value) => GateWait(choices, from, i) == Ended(value, i + 1) && p.link.Plain()
      case None => GateWait(choices, from, i) == GateWait(choices, from, i + 1) && p.link == RouteAll(armed, Frames(choices[from..i + 1]))
  {
    GateEndsOnVerdict(armed, Frames(choices[from..i]));
    RouteAllKeepsPairing(armed, Frames(choices[from..i]));
    RouteNext(armed, choices, from, i);
    hide Verdict, Route, RouteAll, Frames, Mismatches;
  }

  lemma AuthPasses(armed: Link, choices: seq<Choice>, from: nat, i: nat)
    requires AuthOpen(armed, 0) && ElsePlain(armed) && from <= i < |choices|
    ensures var p := AuthPass(RouteAll(armed, Frames(choices[from..i])), choices[i]);
      match p.end
      case Some(value) => AuthWait(choices, from, i) == Ended(value, i + 1) && p.link.Plain()
      case None => AuthWait(choices, from, i) == AuthWait(choices, from, i + 1) && p.link == RouteAll(armed, Frames(choices[from..i + 1]))
  {
    AuthEndsOnVerdict(armed, Frames(choices[from..i]));
    RouteAllKeepsPairing(armed, Frames(choices[from..i]));
    RouteNext(armed, choices, from, i);
    hide Verdict, Route, RouteAll, Frames, Mismatches;
  }

  class BleState {
    var response: Oneshot<Bytes>
    var gatePending: bool
    var gate: Oneshot<GateResult>
    var authPending: bool
    var auth: Oneshot<bool>
    var failures: nat
    var pairFpGate: bool
    var buttonPending: bool
    var button: Oneshot<byte>
    var buttonFpOk: bool

    ghost function View(): Link
      reads this
    {
      Link(response, gatePending, gate, authPending, auth, failures, pairFpGate, buttonPending, button, buttonFpOk)
    }

    constructor ()
      ensures View().Plain() && View().Coherent() && !response.armed
    {
      response, gate, auth, button := Oneshot(false, Dropped), Oneshot(false, Dropped), Oneshot(false, Dropped), Oneshot(false, Dropped);
      gatePending, authPending, pairFpGate, buttonPending, buttonFpOk := false, false, false, false, false;
      failures := 0;
    }

    method RouteNotification(frame: Frame) returns (effect: Effect)
      modifies this
      ensures Routed(View(), effect) == Route(old(View()), frame)
    {
      effect := Nothing;
      var f := frame.bytes;
      if f == [] {
        return;
      }
      var first, len := f[0], |f|;
      if first == FP_MATCH && len == 11 {
        effect := HandleFpMatch(frame);
      } else if first == LOCK && len == 1 {
        effect := LockRequested;
      } else if first == KEEPALIVE && len == 4 {
        return;
      } else if first == ENROLL && len == 4 {
        effect := EnrollNews(f[1], f[2], f[3]);
      } else if first == CONN_PARAMS && len == 6 {
        return;
      } else if first == PAIR_BUTTON {
        if len == 2 {
          effect := HandlePairButton(f[1]);
        }
      } else if first == GATE_APPROVED && (gatePending || pairFpGate) {
        if gatePending {
          effect := GateVerified;
        }
      } else {
        effect := RouteOutcome(f);
      }
    }

    /** The branches that may settle a gate, an authentication or a command. */
    method RouteOutcome(f: Bytes) returns (effect: Effect)
      requires f != [] && !IsAsync(f) && !(f[0] == GATE_APPROVED && (gatePending || pairFpGate))
      modifies this
      ensures forall genuine :: Routed(View(), effect) == Route(old(View()), Frame(f, genuine))
    {
      effect := Nothing;
      var first := f[0];
      if first == NOT_MATCH && gatePending {
        failures := failures + 1;
        if failures >= MAX_FAILURES {
          gate, gatePending := gate.Send(GateResult(false, Some(NOT_MATCH))), false;
        } else {
          effect := GateMismatch(MAX_FAILURES - failures);
        }
        return;
      }
      if first == NOT_MATCH && authPending {
        failures := failures + 1;
        if failures >= MAX_FAILURES {
          auth, authPending := auth.Send(false), false;
        }
        return;
      }
      if first == OK && gatePending {
        gate, gatePending := gate.Send(GateResult(true, None)), false;
        return;
      }
      if first == OK && authPending {
        auth, authPending := auth.Send(true), false;
        return;
      }
      if gatePending && IsError(first) {
        gate, gatePending := gate.Send(GateResult(false, Some(first))), false;
        return;
      }
      if authPending && IsError(first) {
        auth, authPending := auth.Send(false), false;
        return;
      }
      response := response.Send(f);
    }

    method HandleFpMatch(frame: Frame) returns (effect: Effect)
      requires IsMatch(frame.bytes)
      ensures effect == RouteMatch(View(), frame)
    {
      if pairFpGate {
        return Acked;
      }
      if !frame.genuine {
        return Nothing;
      }
      if !gatePending && !authPending {
        return Matched(LittleEndian(frame.bytes[1..3]));
      }
      return Acked;
    }

    method HandlePairButton(status: byte) returns (effect: Effect)
      modifies this
      ensures Routed(View(), effect) == RouteButton(old(View()), [PAIR_BUTTON, status])
    {
      effect := Nothing;
      if !buttonPending {
        return;
      }
      match status
      case 1 =>
        effect := PairingAt(Ecdh);
      case 3 =>
        buttonFpOk := true;
        effect := PairingAt(WaitButton);
      case 0 =>
        button := button.Send(0);
      case 2 =>
        button := button.Send(2);
      case _ =>
    }

    /** A dropped link: whoever is still waiting gets a failure. */
    method AbortPending()
      modifies this
      ensures View() == Abort(old(View()))
      ensures !gate.armed && !auth.armed && !button.armed && !response.armed && !gatePending && !authPending && !buttonPending && !buttonFpOk
      ensures old(gate).armed ==> gate.rx == Got(GateResult(false, Some(0xFF)))
      ensures old(auth).armed ==> auth.rx == Got(false)
      ensures old(button).armed ==> button.rx == Got(2)
      ensures old(response).armed ==> response.rx == Dropped
    {
      gate, gatePending := gate.Send(GateResult(false, Some(ERROR))), false;
      auth, authPending := auth.Send(false), false;
      button, buttonPending, buttonFpOk := button.Send(2), false, false;
      response := response.Drop();
    }

    /** `written` is whether the command reached the wire. */
    method SendCommandInner(written: bool, choices: seq<Choice>) returns (r: Wait<Result<Bytes, Failure>>)
      requires View().Plain()
      modifies this
      ensures r == if written then Answer(choices, 0, 0) else Ended(Err(NotWritten), 0)
      ensures View().Plain() && (written && r.Ended? ==> !response.armed)
    {
      response := Oneshot(true, Waiting);
      if !written {
        return Ended(Err(NotWritten), 0);
      }
      ghost var armed := View();
      var i := 0;
      while i < |choices|
        invariant 0 <= i <= |choices|
        invariant View() == RouteAll(armed, Frames(choices[0..i]))
        invariant Answer(choices, 0, i) == Answer(choices, 0, 0)
      {
        CommandGetsFirstAnswer(armed, Frames(choices[0..i]));
        RouteNext(armed, choices, 0, i);
        hide FirstAnswer, Frames, Route, RouteAll;
        match choices[i] {
        case Resolved =>
          if response.rx.Got? {
            return Ended(Ok(response.rx.value), i + 1);
          }
        case Notified(frame) =>
          var _ := RouteNotification(frame);
        case Expired =>
          response := response.Drop();
          return Ended(Err(TimedOut), i + 1);
        case Cancelled =>
        }
        i := i + 1;
      }
      CommandGetsFirstAnswer(armed, Frames(choices[0..i]));
      return Going;
    }

    /** One pass of the loop; `cancelSent` is whether it wrote GATE_CANCEL to the device. */
    method GatePick(choice: Choice) returns (end: Option<Result<Reply, Failure>>, cancelSent: bool)
      modifies this
      ensures Pass(View(), end) == GatePass(old(View()), choice)
      ensures cancelSent <==> choice.Cancelled?
    {
      end, cancelSent := None, false;
      match choice
      case Resolved =>
        if gate.rx.Got? {
          gatePending := false;
          var result := gate.rx.value;
          end := Some(if result.passed then Ok(Reply(OK, [OK])) else Err(GateFailed(result.error)));
        }
      case Notified(frame) =>
        var _ := RouteNotification(frame);
      case Cancelled =>
        gate, gatePending := gate.Drop(), false;
        return Some(Err(GateCancelled)), true;
      case Expired =>
        gate, gatePending := gate.Drop(), false;
        end := Some(Err(GateTimedOut));
    }

    method WaitForGate(choices: seq<Choice>, from: nat) returns (r: Wait<Result<Reply, Failure>>, cancelSent: bool)
      requires View().Plain() && from <= |choices|
      modifies this
      ensures r == GateWait(choices, from, from)
      ensures cancelSent <==> CancelEnds(choices, r)
      ensures r.Ended? ==> View().Plain()
    {
      gatePending, gate, failures := true, Oneshot(true, Waiting), 0;
      ghost var armed := View();
      for i := from to |choices|
        invariant View() == RouteAll(armed, Frames(choices[from..i]))
        invariant GateWait(choices, from, i) == GateWait(choices, from, from)
      {
        GatePasses(armed, choices, from, i);
        hide Frames, Route, RouteAll, GateWait;
        var end: Option<Result<Reply, Failure>>;
        end, cancelSent := GatePick(choices[i]);
        if end.Some? {
          return Ended(end.value, i + 1), cancelSent;
        }
      }
      return Going, false;
    }

    method SendFpGatedInner(written: bool, choices: seq<Choice>) returns (r: Wait<Result<Reply, Failure>>, cancelSent: bool)
      requires View().Plain()
      modifies this
      ensures r == if written then Gated(choices) else Ended(Err(NotWritten), 0)
      ensures cancelSent <==> written && CancelEnds(choices, r)
      ensures r.Ended? ==> View().Plain()
    {
      var sent := SendCommandInner(written, choices);
      if sent.Going? {
        return Going, false;
      }
      if sent.value.Err? {
        return Ended(Err(sent.value.error), sent.at), false;
      }
      var answer := sent.value.value;
      if answer == [] {
        return Ended(Err(EmptyAnswer), sent.at), false;
      }
      if answer[0] == OK {
        return Ended(Ok(Reply(OK, answer[1..])), sent.at), false;
      }
      if answer[0] != WAIT_FP && answer[0] != GATE_APPROVED {
        return Ended(Err(Refused(answer[0])), sent.at), false;
      }
      r, cancelSent := WaitForGate(choices, sent.at);
    }

    method AuthPick(choice: Choice) returns (end: Option<Result<bool, Failure>>, cancelSent: bool)
      modifies this
      ensures Pass(View(), end) == AuthPass(old(View()), choice)
      ensures cancelSent <==> choice.Cancelled?
    {
      end, cancelSent := None, false;
      match choice
      case Resolved =>
        if auth.rx.Got? {
          authPending := false;
          end := Some(Ok(auth.rx.value));
        }
      case Notified(frame) =>
        var _ := RouteNotification(frame);
      case Cancelled =>
        auth, authPending := auth.Drop(), false;
        return Some(Ok(false)), true;
      case Expired =>
        auth, authPending := auth.Drop(), false;
        end := Some(Ok(false));
    }

    method WaitForAuth(choices: seq<Choice>, from: nat) returns (r: Wait<Result<bool, Failure>>, cancelSent: bool)
      requires View().Plain() && from <= |choices|
      modifies this
      ensures r == AuthWait(choices, from, from)
      ensures cancelSent <==> CancelEnds(choices, r)
      ensures r.Ended? ==> View().Plain()
    {
      authPending, auth, failures := true, Oneshot(true, Waiting), 0;
      ghost var armed := View();
      for i := from to |choices|
        invariant View() == RouteAll(armed, Frames(choices[from..i]))
        invariant AuthWait(choices, from, i) == AuthWait(choices, from, from)
      {
        AuthPasses(armed, choices, from, i);
        hide Frames, Route, RouteAll, AuthWait;
        var end: Option<Result<bool, Failure>>;
        end, cancelSent := AuthPick(choices[i]);
        if end.Some? {
          return Ended(end.value, i + 1), cancelSent;
        }
      }
      return Going, false;
    }

    method DoAuthRequest(written: bool, choices: seq<Choice>) returns (r: Wait<Result<bool, Failure>>, cancelSent: bool)
      requires View().Plain()
      modifies this
      ensures r == if written then Authenticated(choices) else Ended(Err(NotWritten), 0)
      ensures cancelSent <==> written && CancelEnds(choices, r)
      ensures r.Ended? ==> View().Plain()
    {
      var sent := SendCommandInner(written, choices);
      if sent.Going? {
        return Going, false;
      }
      if sent.value.Err? {
        return Ended(Err(sent.value.error), sent.at), false;
      }
      var answer := sent.value.value;
      if answer == [] {
        return Ended(Err(EmptyAnswer), sent.at), false;
      }
      if answer[0] == OK {
        return Ended(Ok(true), sent.at), false;
      }
      if answer[0] != WAIT_FP {
        return Ended(Err(Refused(answer[0])), sent.at), false;
      }
      r, cancelSent := WaitForAuth(choices, sent.at);
    }
  }
}
