/** What a daemon log says happened, read back from the log alone. */
module DaemonHistory {
  import opened Wire
  import opened Link
  import opened Coordinator
  import opened Daemon

  predicate IsSlotApproval(e: Event) {
    e.SlotApproved?
  }

  /** OK:AUTHENTICATED or OK:APPROVED. */
  predicate IsApproval(e: Event) {
    e.Approved?
  }

  /** A fingerprint match whose HMAC verified, routed while no gate or authentication was open. */
  predicate IsTouch(e: Event) {
    e.Received? && e.quiet && e.frame.genuine && IsMatch(e.frame.bytes)
  }

  predicate IsNotify(e: Event) {
    e.Notified?
  }

  predicate IsKill(e: Event) {
    e.GateKilled?
  }

  predicate IsDialogCancel(e: Event) {
    e.DialogNotified?
  }

  predicate IsAuthKill(e: Event) {
    e.AuthKilled?
  }

  function Count(log: seq<Event>, p: Event -> bool): nat {
    |Filter(log, p)|
  }

  lemma CountNext(log: seq<Event>, e: Event, p: Event -> bool)
    ensures Count(log + [e], p) == Count(log, p) + if p(e) then 1 else 0
  {
    assert (log + [e])[..|log|] == log;
  }

  // ---- What counts as the device's yes ----

  /** The frames routed, in order. */
  function Came(log: seq<Event>): seq<Frame> {
    if log == [] then []
    else
      var front, last := Came(log[..|log| - 1]), log[|log| - 1];
      if last.Received? then front + [last.frame] else front
  }

  /** The worker is still at what it began before event `i` when event `j` comes. */
  predicate Underway(log: seq<Event>, i: nat, j: nat) {
    i <= j <= |log| && forall k :: i <= k < j ==> !log[k].Sent? && !log[k].Replied?
  }

  function Since(log: seq<Event>, i: nat, j: nat): seq<Frame>
    requires i < j <= |log|
  {
    Came(log[i + 1..j])
  }

  /** `r`'s command went out at `i`, and by `j` its first answer was in and a success. */
  predicate AnsweredOk(log: seq<Event>, i: nat, j: nat, r: nat) {
    && i < j <= |log| && log[i] == Sent(r) && Underway(log, i + 1, j)
    && match FirstAnswer(Since(log, i, j))
       case Some(answer) => answer != [] && answer[0] == OK
       case None => false
  }

  /** `r`'s authentication opened at `i`, and by `j` the frames routed since had settled it with a success. */
  predicate AuthPassed(log: seq<Event>, i: nat, j: nat, r: nat) {
    && i < j <= |log| && log[i] == AuthOpened(r) && Underway(log, i + 1, j)
    && match Verdict(Since(log, i, j))
       case Some(result) => result.passed
       case None => false
  }

  ghost predicate Granted(log: seq<Event>, r: nat) {
    exists i: nat, j: nat :: AnsweredOk(log, i, j, r) || AuthPassed(log, i, j, r)
  }

  /** What may approve a request: its own authentication, or a slot approval addressed to it. */
  ghost predicate Caused(log: seq<Event>, r: nat) {
    SlotApproved(r) in log || Granted(log, r)
  }

  lemma GrantStays(log: seq<Event>, e: Event, r: nat)
    requires Granted(log, r)
    ensures Granted(log + [e], r)
  {
    var i: nat, j: nat :| AnsweredOk(log, i, j, r) || AuthPassed(log, i, j, r);
    assert (log + [e])[i + 1..j] == log[i + 1..j];
    assert Underway(log + [e], i + 1, j);
    hide FirstAnswer, Verdict, Underway;
    assert AnsweredOk(log + [e], i, j, r) || AuthPassed(log + [e], i, j, r);
  }

  /** One more event adds at most its frame to what came since `i`. */
  lemma SinceNext(log: seq<Event>, e: Event, i: nat)
    requires i < |log|
    ensures Since(log + [e], i, |log| + 1) == Since(log, i, |log|) + if e.Received? then [e.frame] else []
  {
    var now := (log + [e])[i + 1..|log| + 1];
    assert now[..|now| - 1] == log[i + 1..|log|] && now[|now| - 1] == e;
  }

  /** The requests approved through the slot so far. */
  function Told(log: seq<Event>): set<nat> {
    if log == [] then {}
    else
      var front, last := Told(log[..|log| - 1]), log[|log| - 1];
      if last.SlotApproved? then front + {last.r} else front
  }

  lemma {:induction false} ToldMeans(log: seq<Event>, r: nat)
    ensures r in Told(log) <==> SlotApproved(r) in log
  {
    if log != [] {
      var n := |log| - 1;
      ToldMeans(log[..n], r);
      assert log == log[..n] + [log[n]];
    }
  }

  lemma {:induction false} ToldAreCounted(log: seq<Event>)
    ensures |Told(log)| <= Count(log, IsSlotApproval)
  {
    if log != [] {
      var front, e := log[..|log| - 1], log[|log| - 1];
      ToldAreCounted(front);
      hide Count;
      assert log == front + [e];
      CountNext(front, e, IsSlotApproval);
    }
  }

  /** The requests answered OK:AUTHENTICATED or OK:APPROVED so far. */
  function Served(log: seq<Event>): set<nat> {
    if log == [] then {}
    else
      var front, last := Served(log[..|log| - 1]), log[|log| - 1];
      if last.Approved? then front + {last.r} else front
  }

  lemma ServedNext(log: seq<Event>, e: Event)
    ensures Served(log + [e]) == if e.Approved? then Served(log) + {e.r} else Served(log)
  {
    assert (log + [e])[..|log|] == log;
  }

  /** The pre-auth window in force: the last one armed, unless a lock cleared it since. */
  function Standing(log: seq<Event>): (w: Option<Event>)
    ensures w.Some? ==> w.value.WindowArmed?
  {
    if log == [] then None
    else
      var last := log[|log| - 1];
      if last.WindowArmed? then Some(last)
      else if last.WindowCleared? then None
      else Standing(log[..|log| - 1])
  }

  /** Event `j` armed a window, and none was armed or cleared since. */
  ghost predicate StandsSince(log: seq<Event>, j: nat, e: Event) {
    j < |log| && log[j] == e && e.WindowArmed? && forall k :: j < k < |log| ==> !log[k].WindowArmed? && !log[k].WindowCleared?
  }

  lemma StandsLonger(log: seq<Event>, j: nat, e: Event)
    requires log != [] && StandsSince(log[..|log| - 1], j, e)
    requires !log[|log| - 1].WindowArmed? && !log[|log| - 1].WindowCleared?
    ensures StandsSince(log, j, e)
  {
    assert forall k :: 0 <= k < |log| - 1 ==> log[..|log| - 1][k] == log[k];
  }

  lemma {:induction false} StandingMeans(log: seq<Event>)
    requires Standing(log).Some?
    ensures exists j: nat :: StandsSince(log, j, Standing(log).value)
  {
    var n := |log| - 1;
    if log[n].WindowArmed? {
      assert StandsSince(log, n, log[n]);
    } else {
      StandingMeans(log[..n]);
      var j: nat :| StandsSince(log[..n], j, Standing(log[..n]).value);
      StandsLonger(log, j, Standing(log).value);
    }
  }

  lemma StandingNext(log: seq<Event>, e: Event)
    ensures Standing(log + [e]) == if e.WindowArmed? then Some(e) else if e.WindowCleared? then None else Standing(log)
  {
    assert (log + [e])[..|log|] == log;
  }

  /** Whether a permit is stored: the last event to concern it put it there and took nothing away. */
  function Stored(log: seq<Event>, up: Event -> bool, down: Event -> bool): bool {
    if log == [] then false
    else
      var last := log[|log| - 1];
      if up(last) then true else if down(last) then false else Stored(log[..|log| - 1], up, down)
  }

  lemma StoredNext(log: seq<Event>, e: Event, up: Event -> bool, down: Event -> bool)
    ensures Stored(log + [e], up, down) == if up(e) then true else if down(e) then false else Stored(log, up, down)
  {
    assert (log + [e])[..|log|] == log;
  }

  /** A stored gate cancel, and a stored dialog cancel. */
  predicate GateStored(log: seq<Event>) {
    Stored(log, IsNotify, IsKill)
  }

  predicate AuthStored(log: seq<Event>) {
    Stored(log, IsDialogCancel, IsAuthKill)
  }

  /** Event `j` put the permit there, and none was spent since. */
  ghost predicate StoredAt(log: seq<Event>, j: nat, up: Event -> bool, down: Event -> bool) {
    j < |log| && up(log[j]) && forall k :: j < k < |log| ==> !down(log[k])
  }

  lemma {:induction false} StoredMeans(log: seq<Event>, up: Event -> bool, down: Event -> bool)
    requires Stored(log, up, down)
    ensures exists j: nat :: StoredAt(log, j, up, down)
  {
    var n := |log| - 1;
    if up(log[n]) {
      assert StoredAt(log, n, up, down);
    } else {
      StoredMeans(log[..n], up, down);
      var j: nat :| StoredAt(log[..n], j, up, down);
      assert log[..n][j] == log[j];
      assert forall k :: j < k < n ==> log[..n][k] == log[k];
      assert StoredAt(log, j, up, down);
    }
  }

  /** Nothing is spent that is not stored. */
  predicate Covered(log: seq<Event>, up: Event -> bool, down: Event -> bool) {
    forall i :: 0 <= i < |log| && down(log[i]) ==> Stored(log[..i], up, down) && !up(log[i])
  }

  lemma CoveredFront(log: seq<Event>, up: Event -> bool, down: Event -> bool)
    requires log != [] && Covered(log, up, down)
    ensures Covered(log[..|log| - 1], up, down)
    ensures down(log[|log| - 1]) ==> Stored(log[..|log| - 1], up, down) && !up(log[|log| - 1])
  {
    hide Stored;
    var front := log[..|log| - 1];
    forall i | 0 <= i < |front| && down(front[i]) ensures Stored(front[..i], up, down) && !up(front[i]) {
      assert front[..i] == log[..i] && front[i] == log[i];
    }
  }

  /** Then spent and stored together never exceed what was put there. */
  lemma {:induction false} PermitsAreConserved(log: seq<Event>, up: Event -> bool, down: Event -> bool)
    requires Covered(log, up, down)
    ensures Count(log, down) + (if Stored(log, up, down) then 1 else 0) <= Count(log, up)
  {
    if log != [] {
      hide *;
      var front, e := log[..|log| - 1], log[|log| - 1];
      CoveredFront(log, up, down);
      PermitsAreConserved(front, up, down);
      assert log == front + [e];
      CountNext(front, e, down);
      CountNext(front, e, up);
      StoredNext(front, e, up, down);
    }
  }

  /** The gate being waited on or wound down, if any. */
  function GateUnderway(log: seq<Event>): Option<nat> {
    if log == [] then None
    else
      var last := log[|log| - 1];
      if last.GateOpened? then Some(last.r) else if last.GateClosed? then None else GateUnderway(log[..|log| - 1])
  }

  lemma UnderwayNext(log: seq<Event>, e: Event)
    ensures GateUnderway(log + [e]) == if e.GateOpened? then Some(e.r) else if e.GateClosed? then None else GateUnderway(log)
  {
    assert (log + [e])[..|log|] == log;
  }

  /** The authentication being waited on or wound down, if any. */
  function AuthUnderway(log: seq<Event>): Option<nat> {
    if log == [] then None
    else
      var last := log[|log| - 1];
      if last.AuthOpened? then Some(last.r) else if last.Replied? then None else AuthUnderway(log[..|log| - 1])
  }

  lemma AuthUnderwayNext(log: seq<Event>, e: Event)
    ensures AuthUnderway(log + [e]) == if e.AuthOpened? then Some(e.r) else if e.Replied? then None else AuthUnderway(log)
  {
    assert (log + [e])[..|log|] == log;
  }

  lemma LogNext(log: seq<Event>, e: Event)
    ensures Standing(log + [e]) == if e.WindowArmed? then Some(e) else if e.WindowCleared? then None else Standing(log)
    ensures GateStored(log + [e]) == if e.Notified? then true else if e.GateKilled? then false else GateStored(log)
    ensures AuthStored(log + [e]) == if e.DialogNotified? then true else if e.AuthKilled? then false else AuthStored(log)
    ensures GateUnderway(log + [e]) == if e.GateOpened? then Some(e.r) else if e.GateClosed? then None else GateUnderway(log)
    ensures AuthUnderway(log + [e]) == if e.AuthOpened? then Some(e.r) else if e.Replied? then None else AuthUnderway(log)
    ensures Count(log + [e], IsSlotApproval) == Count(log, IsSlotApproval) + if IsSlotApproval(e) then 1 else 0
    ensures Count(log + [e], IsTouch) == Count(log, IsTouch) + if IsTouch(e) then 1 else 0
  {
    StandingNext(log, e);
    StoredNext(log, e, IsNotify, IsKill);
    StoredNext(log, e, IsDialogCancel, IsAuthKill);
    UnderwayNext(log, e);
    AuthUnderwayNext(log, e);
    CountNext(log, e, IsSlotApproval);
    CountNext(log, e, IsTouch);
  }

  /** Every event is justified by the events before it. */
  ghost predicate Throughout(log: seq<Event>, just: (seq<Event>, Event) -> bool) {
    forall i :: 0 <= i < |log| ==> just(log[..i], log[i])
  }

  lemma ThroughoutNext(log: seq<Event>, e: Event, just: (seq<Event>, Event) -> bool)
    requires Throughout(log, just) && just(log, e)
    ensures Throughout(log + [e], just)
  {
    var all := log + [e];
    forall i | 0 <= i < |all| ensures just(all[..i], all[i]) {
      if i < |log| {
        assert all[..i] == log[..i];
      } else {
        assert all[..i] == log;
      }
    }
  }

  lemma ThroughoutFront(log: seq<Event>, just: (seq<Event>, Event) -> bool)
    requires Throughout(log, just) && log != []
    ensures Throughout(log[..|log| - 1], just) && just(log[..|log| - 1], log[|log| - 1])
  {
    var front := log[..|log| - 1];
    forall i | 0 <= i < |front| ensures just(front[..i], front[i]) {
      assert front[..i] == log[..i];
    }
  }

  lemma ThroughoutPrefix(log: seq<Event>, n: nat, just: (seq<Event>, Event) -> bool)
    requires Throughout(log, just) && n <= |log|
    ensures Throughout(log[..n], just)
  {
    forall i | 0 <= i < n ensures just(log[..n][..i], log[..n][i]) {
      assert log[..n][..i] == log[..i];
    }
  }
}
