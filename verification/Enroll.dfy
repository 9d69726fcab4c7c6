/** The enrollment driver's poll loop (`enroll_session.rs`). Times in milliseconds. */
module Enroll {
  import opened Wire

  const POLL_INTERVAL: nat := 150
  const IDLE_CHECK: nat := 3_000
  const TIMEOUT: nat := 360_000
  const MAX_POLLS: nat := 2401

  datatype Status = Idle | Waiting(current: byte, total: byte) | Captured(current: byte, total: byte)
    | Lift | Overlapping | Busy | Done | Rejected

  datatype Reason = TimedOut | Disconnected | DeviceFailed

  datatype Event = Started | Step(nextStep: nat, captured: byte, total: byte) | LiftFinger | Overlap | Processing | Complete
    | Failed(reason: Reason)
  {
    predicate Terminal() {
      Complete? || Failed?
    }
  }

  datatype Outcome = Completed | Unsuccessful | Cancelled

  datatype Poll = Answer(status: Status) | NotConnected | Hiccup

  /**
   * What one iteration meets: the clock and the stop flag at its top, the poll's answer, the clock after it, and
   * whether the bitmap, if asked for, shows the slot enrolled.
   */
  datatype Round = Round(now: nat, stop: bool, poll: Poll, after: nat, bitmap: Option<bool>)

  /** How a run ended; `Running` when the observed rounds did not end it. */
  datatype End = Running | StopAtStart | StoppedByTick | StoppedByFlag | Expired | LinkLost | SeenInBitmap | Told

  datatype Session = Session(events: seq<Event>, polls: nat, end: End)

  /** `duration_since` does not go below zero. */
  function Since(now: nat, earlier: nat): nat {
    if now < earlier then 0 else now - earlier
  }

  function StepEvent(current: byte, total: byte): Event {
    var next := if current == 255 then 255 else current + 1;
    var last := if total == 0 then 1 else total as nat;
    Step(if next < last then next else last, current, total)
  }

  function EventOf(s: Status): Event {
    match s
    case Waiting(current, total) => StepEvent(current, total)
    case Captured(current, total) => StepEvent(current, total)
    case Lift => LiftFinger
    case Overlapping => Overlap
    case Busy => Processing
    case Done => Complete
    case Rejected => Failed(DeviceFailed)
    case Idle => Processing
  }

  // ---- The trace specification ----

  /** The successful polls of the first `n` rounds that were not idle. */
  function Seen(env: nat -> Round, n: nat): seq<Status> {
    if n == 0 then []
    else
      var poll := env(n - 1).poll;
      Seen(env, n - 1) + if poll.Answer? && poll.status != Idle then [poll.status] else []
  }

  /** Adjacent repeats removed. */
  function Dedup(s: seq<Status>): seq<Status> {
    if |s| <= 1 then s
    else
      var front := Dedup(s[..|s| - 1]);
      if s[|s| - 1] == s[|s| - 2] then front else front + [s[|s| - 1]]
  }

  /** What `n` rounds make the driver report. */
  function Trace(env: nat -> Round, n: nat): seq<Event> {
    [Started] + Map(Dedup(Seen(env, n)), EventOf)
  }

  function Tail(end: End): seq<Event> {
    match end
    case Expired => [Failed(TimedOut)]
    case LinkLost => [Failed(Disconnected)]
    case SeenInBitmap => [Complete]
    case _ => []
  }

  function OutcomeOf(s: Session): Option<Outcome> {
    match s.end
    case Running => None
    case StopAtStart => Some(Cancelled)
    case StoppedByTick => Some(Cancelled)
    case StoppedByFlag => Some(Cancelled)
    case _ => Some(if s.events != [] && s.events[|s.events| - 1] == Complete then Completed else Unsuccessful)
  }

  predicate Ongoing(s: Status) {
    s != Done && s != Rejected && s != Idle
  }

  /** The first `n` rounds were polled: neither stopped nor timed out at their top. */
  ghost predicate Polled(env: nat -> Round, start: nat, n: nat) {
    forall i :: 0 <= i < n ==> !env(i).stop && Since(env(i).now, start) <= TIMEOUT
  }

  /** Since when the driver has been counting an idle stretch; a failed poll does not interrupt it, a check restarts it. */
  function IdleMark(env: nat -> Round, n: nat): Option<nat> {
    if n == 0 then None
    else
      var before, round := IdleMark(env, n - 1), env(n - 1);
      if round.poll == Answer(Idle) then
        if before.None? || Since(round.after, before.value) >= IDLE_CHECK then Some(round.after) else before
      else if round.poll.Answer? then None
      else before
  }

  /** Round `n` is idle, three seconds into the stretch: the bitmap is looked at. */
  predicate Checks(env: nat -> Round, n: nat) {
    env(n).poll == Answer(Idle) && IdleMark(env, n).Some? && Since(env(n).after, IdleMark(env, n).value) >= IDLE_CHECK
  }

  predicate FoundEnrolled(env: nat -> Round, n: nat) {
    Checks(env, n) && env(n).bitmap == Some(true)
  }

  /** Nothing in the first `n` rounds ended the session. */
  ghost predicate WentOn(env: nat -> Round, start: nat, n: nat) {
    && Polled(env, start, n)
    && (forall i :: 0 <= i < n ==> env(i).poll != NotConnected && !FoundEnrolled(env, i))
    && (forall x | x in Seen(env, n) :: Ongoing(x))
  }

  /** Why a session stands where it does after `n` rounds. */
  ghost predicate Justified(end: End, env: nat -> Round, start: nat, n: nat) {
    match end
    case StopAtStart => false
    case Running => WentOn(env, start, n)
    case StoppedByFlag => WentOn(env, start, n) && env(n).stop && Since(env(n).now, start) <= TIMEOUT
    case Expired => WentOn(env, start, n) && Since(env(n).now, start) > TIMEOUT
    case LinkLost => n > 0 && Polled(env, start, n) && WentOn(env, start, n - 1) && env(n - 1).poll == NotConnected
    case SeenInBitmap => n > 0 && Polled(env, start, n) && WentOn(env, start, n - 1) && FoundEnrolled(env, n - 1)
    case Told => n > 0 && Polled(env, start, n) && WentOn(env, start, n - 1) && (env(n - 1).poll == Answer(Done) || env(n - 1).poll == Answer(Rejected))
    case StoppedByTick => n == 0 || WentOn(env, start, n)
  }

  /** Everything a finished or still running session tells: its events, and why it stands where it stands. */
  ghost predicate Tells(s: Session, tick: nat -> bool, env: nat -> Round, start: nat) {
    && s.events == Trace(env, s.polls) + Tail(s.end)
    && (forall k :: 0 <= k < |Trace(env, s.polls)| - 1 ==> tick(k))
    && (s.end.StoppedByTick? ==> !tick(|s.events| - 1))
    && Justified(s.end, env, start, s.polls)
  }

  lemma MapNext(s: seq<Status>, x: Status)
    ensures Map(s + [x], EventOf) == Map(s, EventOf) + [EventOf(x)]
  {
  }

  /** Dedup ends on the last status heard. */
  lemma {:induction false} DedupLast(s: seq<Status>)
    requires s != []
    ensures Dedup(s) != [] && Dedup(s)[|Dedup(s)| - 1] == s[|s| - 1]
  {
    if |s| > 1 {
      DedupLast(s[..|s| - 1]);
    }
  }

  lemma DedupNext(s: seq<Status>, x: Status)
    ensures Dedup(s + [x]) == if s != [] && s[|s| - 1] == x then Dedup(s) else Dedup(s) + [x]
  {
    assert (s + [x])[..|s|] == s;
  }

  /** One more poll adds an event exactly when it brings a status, not idle, that differs from the last one. */
  lemma TraceNext(env: nat -> Round, n: nat)
    ensures var poll := env(n).poll;
      var seen := Seen(env, n);
      if poll.Answer? && poll.status != Idle then
        Seen(env, n + 1) == seen + [poll.status]
        && Trace(env, n + 1) == Trace(env, n) + if seen != [] && seen[|seen| - 1] == poll.status then [] else [EventOf(poll.status)]
      else Seen(env, n + 1) == seen && Trace(env, n + 1) == Trace(env, n)
  {
    var poll, seen := env(n).poll, Seen(env, n);
    if poll.Answer? && poll.status != Idle {
      DedupNext(seen, poll.status);
      MapNext(Dedup(seen), poll.status);
    }
  }

  /** The loop's own state after `n` rounds. */
  predicate InStep(env: nat -> Round, n: nat, last: Option<Status>, idleSince: Option<nat>) {
    && last == (if Seen(env, n) == [] then None else Some(Seen(env, n)[|Seen(env, n)| - 1]))
    && idleSince == IdleMark(env, n)
  }

  /** The loop's variables. */
  datatype Loop = Loop(events: seq<Event>, last: Option<Status>, idleSince: Option<nat>)

  ghost predicate Going(l: Loop, tick: nat -> bool, env: nat -> Round, start: nat, n: nat) {
    && l.events == Trace(env, n) && WentOn(env, start, n) && InStep(env, n, l.last, l.idleSince)
    && forall k :: 0 <= k < |l.events| ==> tick(k)
  }

  lemma QuietRound(l: Loop, tick: nat -> bool, env: nat -> Round, start: nat, n: nat)
    requires Going(l, tick, env, start, n) && !env(n).stop && Since(env(n).now, start) <= TIMEOUT
    requires env(n).poll == Hiccup || (env(n).poll == Answer(Idle) && !FoundEnrolled(env, n))
    ensures Going(l.(idleSince := IdleMark(env, n + 1)), tick, env, start, n + 1)
    ensures env(n).poll == Hiccup ==> IdleMark(env, n + 1) == l.idleSince
  {
    TraceNext(env, n);
    hide Trace, Seen, EventOf, Ongoing;
  }

  /** An idle answer: every three seconds of them, look at the bitmap. */
  method PollIdle(l: Loop, env: nat -> Round, n: nat) returns (next: Loop, found: bool)
    requires l.idleSince == IdleMark(env, n) && env(n).poll == Answer(Idle)
    ensures next == l.(idleSince := IdleMark(env, n + 1))
    ensures found <==> FoundEnrolled(env, n)
  {
    next, found := l, false;
    var now := env(n).after;
    if l.idleSince.None? {
      next := l.(idleSince := Some(now));
    } else if Since(now, l.idleSince.value) >= IDLE_CHECK {
      next := l.(idleSince := Some(now));
      found := env(n).bitmap == Some(true);
    }
  }

  lemma NewsRound(l: Loop, tick: nat -> bool, env: nat -> Round, start: nat, n: nat)
    requires Going(l, tick, env, start, n) && !env(n).stop && Since(env(n).now, start) <= TIMEOUT
    requires env(n).poll.Answer? && env(n).poll.status != Idle
    ensures var status := env(n).poll.status;
      && Seen(env, n + 1) != [] && Seen(env, n + 1)[|Seen(env, n + 1)| - 1] == status
      && Trace(env, n + 1) == l.events + (if l.last == Some(status) then [] else [EventOf(status)])
      && (Ongoing(status) ==> WentOn(env, start, n + 1))
      && (l.last == Some(status) ==> Ongoing(status))
  {
    TraceNext(env, n);
    hide Trace, Seen;
    var seen := Seen(env, n);
    assert l.last.Some? ==> l.last.value in seen;
  }

  /** A status heard again: nothing to report. */
  lemma RepeatKeepsGoing(l: Loop, tick: nat -> bool, env: nat -> Round, start: nat, n: nat)
    requires Going(l, tick, env, start, n) && !env(n).stop && Since(env(n).now, start) <= TIMEOUT
    requires env(n).poll.Answer? && env(n).poll.status != Idle && l.last == Some(env(n).poll.status)
    ensures Going(l.(idleSince := None), tick, env, start, n + 1)
  {
    NewsRound(l, tick, env, start, n);
    hide Trace, Seen, EventOf;
  }

  /** A new status that ends the session. */
  lemma NewsTells(l: Loop, tick: nat -> bool, env: nat -> Round, start: nat, n: nat)
    requires Going(l, tick, env, start, n) && !env(n).stop && Since(env(n).now, start) <= TIMEOUT
    requires env(n).poll == Answer(Done) || env(n).poll == Answer(Rejected)
    ensures Tells(Session(l.events + [EventOf(env(n).poll.status)], n + 1, Told), tick, env, start)
  {
    NewsRound(l, tick, env, start, n);
    var status := env(n).poll.status;
    assert Trace(env, n + 1) == l.events + [EventOf(status)];
    assert Polled(env, start, n + 1) && WentOn(env, start, n);
    hide *;
    ToldTells(l.events, tick, env, start, n);
  }

  lemma ToldTells(events: seq<Event>, tick: nat -> bool, env: nat -> Round, start: nat, n: nat)
    requires env(n).poll == Answer(Done) || env(n).poll == Answer(Rejected)
    requires Polled(env, start, n + 1) && WentOn(env, start, n)
    requires Trace(env, n + 1) == events + [EventOf(env(n).poll.status)]
    requires forall k :: 0 <= k < |events| ==> tick(k)
    ensures Tells(Session(events + [EventOf(env(n).poll.status)], n + 1, Told), tick, env, start)
  {
    hide Trace, EventOf, WentOn, Polled;
    assert Trace(env, n + 1) + [] == Trace(env, n + 1);
  }

  /** A new status over which its receiver stops the session. */
  lemma NewsStops(l: Loop, tick: nat -> bool, env: nat -> Round, start: nat, n: nat)
    requires Going(l, tick, env, start, n) && !env(n).stop && Since(env(n).now, start) <= TIMEOUT
    requires env(n).poll.Answer? && Ongoing(env(n).poll.status) && l.last != Some(env(n).poll.status)
    requires !tick(|l.events|)
    ensures Tells(Session(l.events + [EventOf(env(n).poll.status)], n + 1, StoppedByTick), tick, env, start)
  {
    NewsRound(l, tick, env, start, n);
    hide Trace, Seen, EventOf, InStep, WentOn;
    assert Trace(env, n + 1) + [] == Trace(env, n + 1);
  }

  /** A new status over which it goes on. */
  lemma NewsGoesOn(l: Loop, tick: nat -> bool, env: nat -> Round, start: nat, n: nat)
    requires Going(l, tick, env, start, n) && !env(n).stop && Since(env(n).now, start) <= TIMEOUT
    requires env(n).poll.Answer? && Ongoing(env(n).poll.status) && l.last != Some(env(n).poll.status)
    requires tick(|l.events|)
    ensures Going(Loop(l.events + [EventOf(env(n).poll.status)], Some(env(n).poll.status), None), tick, env, start, n + 1)
  {
    NewsRound(l, tick, env, start, n);
    hide Trace, Seen, EventOf, WentOn;
  }

  /** A status that is not idle: report it unless it is the last one again. */
  method PollNews(l: Loop, tick: nat -> bool, env: nat -> Round, start: nat, n: nat) returns (next: Loop, end: End)
    requires Going(l, tick, env, start, n) && !env(n).stop && Since(env(n).now, start) <= TIMEOUT
    requires env(n).poll.Answer? && env(n).poll.status != Idle
    ensures end == Running ==> Going(next, tick, env, start, n + 1)
    ensures end != Running ==> Tells(Session(next.events, n + 1, end), tick, env, start)
  {
    var status := env(n).poll.status;
    hide Going, Tells, EventOf;
    next, end := l.(idleSince := None), Running;
    if l.last == Some(status) {
      RepeatKeepsGoing(l, tick, env, start, n);
      return;
    }
    next := Loop(l.events + [EventOf(status)], Some(status), None);
    if status == Done || status == Rejected {
      NewsTells(l, tick, env, start, n);
      end := Told;
    } else if !tick(|next.events| - 1) {
      NewsStops(l, tick, env, start, n);
      end := StoppedByTick;
    } else {
      NewsGoesOn(l, tick, env, start, n);
    }
  }

  lemma EndsEarly(l: Loop, tick: nat -> bool, env: nat -> Round, start: nat, n: nat)
    requires Going(l, tick, env, start, n)
    ensures Since(env(n).now, start) > TIMEOUT ==> Tells(Session(l.events + [Failed(TimedOut)], n, Expired), tick, env, start)
    ensures Since(env(n).now, start) <= TIMEOUT && env(n).stop ==> Tells(Session(l.events, n, StoppedByFlag), tick, env, start)
  {
    hide Trace, Seen, InStep;
    assert l.events + [] == l.events;
  }

  lemma EndsDisconnected(l: Loop, tick: nat -> bool, env: nat -> Round, start: nat, n: nat)
    requires Going(l, tick, env, start, n) && !env(n).stop && Since(env(n).now, start) <= TIMEOUT
    requires env(n).poll == NotConnected
    ensures Tells(Session(l.events + [Failed(Disconnected)], n + 1, LinkLost), tick, env, start)
  {
    TraceNext(env, n);
    hide Trace, Seen, InStep;
  }

  lemma EndsEnrolled(l: Loop, tick: nat -> bool, env: nat -> Round, start: nat, n: nat)
    requires Going(l, tick, env, start, n) && !env(n).stop && Since(env(n).now, start) <= TIMEOUT && FoundEnrolled(env, n)
    ensures Tells(Session(l.events + [Complete], n + 1, SeenInBitmap), tick, env, start)
  {
    TraceNext(env, n);
    hide Trace, Seen, InStep;
  }

  /** One iteration of the loop. */
  method Iterate(l: Loop, tick: nat -> bool, env: nat -> Round, start: nat, n: nat) returns (next: Loop, polls: nat, end: End)
    requires Going(l, tick, env, start, n)
    ensures end == Running ==> Going(next, tick, env, start, n + 1)
    ensures end != Running ==> Tells(Session(next.events, polls, end), tick, env, start)
  {
    assert l.idleSince == IdleMark(env, n);
    hide Going, Tells, FoundEnrolled, IdleMark;
    next, polls, end := l, n, Running;
    var round := env(n);
    EndsEarly(l, tick, env, start, n);
    if Since(round.now, start) > TIMEOUT {
      next, end := l.(events := l.events + [Failed(TimedOut)]), Expired;
      return;
    }
    if round.stop {
      end := StoppedByFlag;
      return;
    }
    polls := n + 1;
    match round.poll
    case NotConnected =>
      EndsDisconnected(l, tick, env, start, n);
      next, end := l.(events := l.events + [Failed(Disconnected)]), LinkLost;
    case Hiccup =>
      QuietRound(l, tick, env, start, n);
    case Answer(status) =>
      if status == Idle {
        var found;
        next, found := PollIdle(l, env, n);
        if found {
          EndsEnrolled(l, tick, env, start, n);
          next, end := next.(events := next.events + [Complete]), SeenInBitmap;
        } else {
          QuietRound(l, tick, env, start, n);
        }
      } else {
        next, end := PollNews(l, tick, env, start, n);
      }
  }

  /** `tick(k)` is whether the k-th event's receiver lets the session go on; at most `rounds` iterations are observed. */
  method Drive(stopAtStart: bool, tick: nat -> bool, env: nat -> Round, start: nat, rounds: nat) returns (s: Session)
    ensures if stopAtStart then s == Session([], 0, StopAtStart)
            else Tells(s, tick, env, start) && (s.end == Running ==> s.polls == rounds)
  {
    if stopAtStart {
      return Session([], 0, StopAtStart);
    }
    var l := Loop([Started], None, None);
    assert Trace(env, 0) == [Started];
    if !tick(0) {
      return Session(l.events, 0, StoppedByTick);
    }
    for n := 0 to rounds
      invariant Going(l, tick, env, start, n)
    {
      hide Going, Trace;
      var polls, end;
      l, polls, end := Iterate(l, tick, env, start, n);
      if end != Running {
        return Session(l.events, polls, end);
      }
    }
    return Session(l.events, rounds, Running);
  }

  // ---- What the trace amounts to ----

  lemma {:induction false} DedupMembers(s: seq<Status>)
    ensures forall x | x in Dedup(s) :: x in s
  {
    if |s| > 1 {
      DedupMembers(s[..|s| - 1]);
      assert forall x | x in s[..|s| - 1] :: x in s;
    }
  }

  /** No two events in a row come from the same reading. */
  lemma {:induction false} DedupHasNoRepeats(s: seq<Status>)
    ensures forall k :: 0 < k < |Dedup(s)| ==> Dedup(s)[k] != Dedup(s)[k - 1]
  {
    if |s| > 1 {
      var front := s[..|s| - 1];
      DedupHasNoRepeats(front);
      DedupLast(front);
    }
  }

  lemma OngoingTrace(env: nat -> Round, start: nat, n: nat)
    requires WentOn(env, start, n)
    ensures forall k :: 0 <= k < |Trace(env, n)| ==> !Trace(env, n)[k].Terminal()
  {
    var d := Dedup(Seen(env, n));
    DedupMembers(Seen(env, n));
    forall k | 0 < k < |Trace(env, n)| ensures !Trace(env, n)[k].Terminal() {
      assert Trace(env, n)[k] == EventOf(d[k - 1]) && d[k - 1] in d;
    }
  }

  /** The last event is terminal and matches the outcome, or there is no terminal event and no verdict. */
  predicate Agrees(s: Session)
    requires s.events != []
  {
    var last := s.events[|s.events| - 1];
    && (OutcomeOf(s) == Some(Completed) <==> last == Complete)
    && (OutcomeOf(s) == Some(Unsuccessful) <==> last.Failed?)
    && (OutcomeOf(s) == None || OutcomeOf(s) == Some(Cancelled) <==> !last.Terminal())
  }

  lemma ToldAgrees(s: Session, tick: nat -> bool, env: nat -> Round, start: nat)
    requires Tells(s, tick, env, start) && s.end == Told
    ensures forall k :: 0 <= k < |s.events| - 1 ==> !s.events[k].Terminal()
    ensures s.events != [] && Agrees(s)
  {
    var m := s.polls - 1;
    OngoingTrace(env, start, m);
    NewStatusReported(env, start, m);
    assert s.events == Trace(env, m) + [EventOf(env(m).poll.status)];
    assert env(m).poll.status == Done || env(m).poll.status == Rejected;
    hide *;
    NewsAgrees(s, Trace(env, m), env(m).poll.status);
  }

  lemma NewsAgrees(s: Session, trace: seq<Event>, status: Status)
    requires s.events == trace + [EventOf(status)] && s.end == Told && (status == Done || status == Rejected)
    requires forall k :: 0 <= k < |trace| ==> !trace[k].Terminal()
    ensures forall k :: 0 <= k < |s.events| - 1 ==> !s.events[k].Terminal()
    ensures Agrees(s)
  {
  }

  lemma TailAgrees(s: Session, trace: seq<Event>)
    requires trace != [] && s.events == trace + Tail(s.end) && s.end != Told && s.end != StopAtStart
    requires forall k :: 0 <= k < |trace| ==> !trace[k].Terminal()
    ensures forall k :: 0 <= k < |s.events| - 1 ==> !s.events[k].Terminal()
    ensures Agrees(s)
  {
  }

  /**
   * At most one terminal event, and only as the last one: `Complete` exactly when the outcome is success, a failure
   * exactly when it is not; a cancelled session reports neither.
   */
  lemma OutcomeAgrees(s: Session, tick: nat -> bool, env: nat -> Round, start: nat)
    requires Tells(s, tick, env, start)
    ensures s.events != [] && s.events[0] == Started
    ensures forall k :: 0 <= k < |s.events| - 1 ==> !s.events[k].Terminal()
    ensures Agrees(s)
  {
    assert Trace(env, s.polls)[0] == Started;
    if s.end == Told {
      ToldAgrees(s, tick, env, start);
    } else {
      if s.polls == 0 {
        assert Trace(env, 0) == [Started];
      } else if s.end == LinkLost || s.end == SeenInBitmap {
        OngoingTrace(env, start, s.polls - 1);
        NewStatusReported(env, start, s.polls - 1);
      } else {
        OngoingTrace(env, start, s.polls);
      }
      hide Trace, Agrees, WentOn;
      TailAgrees(s, Trace(env, s.polls));
    }
  }

  /** A terminal status is never a repeat, so it is always reported; a lost link or an idle answer adds nothing. */
  lemma NewStatusReported(env: nat -> Round, start: nat, m: nat)
    requires WentOn(env, start, m)
    requires env(m).poll in {Answer(Done), Answer(Rejected), Answer(Idle), NotConnected}
    ensures Trace(env, m + 1) == Trace(env, m) +
      if env(m).poll == Answer(Done) || env(m).poll == Answer(Rejected) then [EventOf(env(m).poll.status)] else []
  {
    TraceNext(env, m);
    var seen := Seen(env, m);
    assert seen != [] ==> seen[|seen| - 1] in seen;
    assert Trace(env, m) + [] == Trace(env, m);
    hide Trace, Seen;
  }

  /** The bitmap is only looked at when nothing but idle answers and failed polls came for at least three seconds. */
  lemma {:induction false} IdleMarkMeans(env: nat -> Round, n: nat)
    requires IdleMark(env, n).Some?
    ensures exists j: nat :: IdleFrom(env, j, n, IdleMark(env, n).value)
  {
    var m := n - 1;
    TraceNext(env, m);
    var mark := IdleMark(env, n).value;
    if IdleMark(env, m) == Some(mark) {
      IdleMarkMeans(env, m);
      var j: nat :| IdleFrom(env, j, m, mark);
      hide Seen, IdleMark;
      assert IdleFrom(env, j, n, mark);
    } else {
      hide Seen;
      assert IdleFrom(env, m, n, mark);
    }
  }

  /** Round `j` was idle and brought the clock to `since`, and up to round `n` no other status came. */
  ghost predicate IdleFrom(env: nat -> Round, j: nat, n: nat, since: nat) {
    j < n && env(j).poll == Answer(Idle) && Seen(env, n) == Seen(env, j) && env(j).after == since
  }

  ghost predicate ClockNeverBack(env: nat -> Round) {
    forall j: nat, k: nat :: j <= k ==> env(j).after <= env(k).after
  }

  /** From round `i` to round `n` no answer but an idle one came. */
  ghost predicate OnlyIdle(env: nat -> Round, i: nat, n: nat) {
    forall j: nat :: i <= j <= n && env(j).poll.Answer? ==> env(j).poll.status == Idle
  }

  lemma MarkIsPast(env: nat -> Round, n: nat)
    requires IdleMark(env, n).Some? && ClockNeverBack(env)
    ensures IdleMark(env, n).value <= env(n).after
  {
    IdleMarkMeans(env, n);
    hide IdleMark;
  }

  lemma {:induction false} MarkStays(env: nat -> Round, i: nat, n: nat)
    requires i < n && env(i).poll == Answer(Idle) && OnlyIdle(env, i, n) && ClockNeverBack(env)
    requires forall k: nat :: i < k < n ==> !Checks(env, k)
    ensures IdleMark(env, n).Some? && IdleMark(env, n).value <= env(i).after
  {
    if n == i + 1 {
      if IdleMark(env, i).Some? {
        MarkIsPast(env, i);
      }
    } else {
      MarkStays(env, i, n - 1);
      assert !Checks(env, n - 1);
    }
  }

  /** The bitmap is looked at every three seconds of an idle stretch: between two idle answers that far apart there is a look. */
  lemma IdleIsChecked(env: nat -> Round, i: nat, n: nat)
    requires i < n && env(i).poll == Answer(Idle) && env(n).poll == Answer(Idle) && OnlyIdle(env, i, n) && ClockNeverBack(env)
    requires env(n).after >= env(i).after + 3_000
    ensures exists k: nat :: i < k <= n && Checks(env, k)
  {
    if forall k: nat :: i < k < n ==> !Checks(env, k) {
      MarkStays(env, i, n);
      assert Checks(env, n);
    }
  }

  /** Every sleep between two rounds moves the clock by at least the poll interval. */
  ghost predicate ClockAdvances(env: nat -> Round, start: nat) {
    env(0).now >= start && forall i: nat :: env(i + 1).now >= env(i).now + POLL_INTERVAL
  }

  lemma {:induction false} ClockAt(env: nat -> Round, start: nat, n: nat)
    requires ClockAdvances(env, start)
    ensures env(n).now >= start + 150 * n
  {
    if n > 0 {
      ClockAt(env, start, n - 1);
      var m := n - 1;
      assert env(m + 1).now >= env(m).now + POLL_INTERVAL;
    }
  }

  /** On such a clock no session polls more than 2401 times, and one observed for longer has ended. */
  lemma PollsAreBounded(s: Session, tick: nat -> bool, env: nat -> Round, start: nat)
    requires Tells(s, tick, env, start) && ClockAdvances(env, start)
    ensures s.polls <= MAX_POLLS
  {
    if s.polls > 0 {
      assert Polled(env, start, s.polls);
      hide Tells;
      ClockAt(env, start, s.polls - 1);
    }
  }
}
