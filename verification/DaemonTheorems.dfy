/** What holds over every run of the daemon, read off its log. */
module DaemonTheorems {
  import opened Wire
  import opened Link
  import opened Coordinator
  import opened Daemon
  import opened DaemonHistory
  import Approvals = DaemonApprovals
  import Ledger = DaemonLedger

  lemma {:induction false} TouchesCoverApprovals(log: seq<Event>)
    requires Throughout(log, Ledger.Just)
    ensures Count(log, IsSlotApproval) <= Count(log, IsTouch)
  {
    if log != [] {
      var front, e := log[..|log| - 1], log[|log| - 1];
      ThroughoutFront(log, Ledger.Just);
      TouchesCoverApprovals(front);
      assert e.SlotApproved? ==> Count(front, IsSlotApproval) < Count(front, IsTouch);
      hide Ledger.Just, Throughout, Count, IsTouch;
      assert log == front + [e];
      CountNext(front, e, IsSlotApproval);
      CountNext(front, e, IsTouch);
    }
  }

  /** At no point have more slot approvals been sent than verified touches came in with no gate or authentication open. */
  lemma ApprovalsNeverOutnumberTouches(actions: seq<Action>, i: nat)
    requires i <= |Run(actions).log|
    ensures Count(Run(actions).log[..i], IsSlotApproval) <= Count(Run(actions).log[..i], IsTouch)
  {
    Ledger.RunKeeps(actions);
    ThroughoutPrefix(Run(actions).log, i, Ledger.Just);
    TouchesCoverApprovals(Run(actions).log[..i]);
  }

  // ---- Answers ----

  /** There are as many OK answers as requests answered. */
  lemma {:induction false} ServedOnce(log: seq<Event>)
    requires Throughout(log, Approvals.Just)
    ensures Count(log, IsApproval) == |Served(log)|
  {
    if log != [] {
      var front, e := log[..|log| - 1], log[|log| - 1];
      ThroughoutFront(log, Approvals.Just);
      ServedOnce(front);
      assert e.Approved? ==> e.r !in Served(front);
      hide Approvals.Just, Throughout, Count;
      assert log == front + [e];
      CountNext(front, e, IsApproval);
      ServedNext(front, e);
    }
  }

  lemma {:induction false} ServedHolds(log: seq<Event>, i: nat)
    requires i < |log| && log[i].Approved?
    ensures log[i].r in Served(log)
  {
    if i < |log| - 1 {
      ServedHolds(log[..|log| - 1], i);
    }
  }

  /** In every run, two OK answers go to two requests. */
  lemma AnsweredOnce(actions: seq<Action>, i: nat, j: nat)
    requires i < j < |Run(actions).log| && Run(actions).log[i].Approved? && Run(actions).log[j].Approved?
    ensures Run(actions).log[i].r != Run(actions).log[j].r
  {
    var log := Run(actions).log;
    Approvals.RunKeeps(actions);
    assert Approvals.Just(log[..j], log[j]);
    assert log[..j][i] == log[i];
    hide Run, Throughout, Approvals.Just;
    ServedHolds(log[..j], i);
  }

  lemma {:induction false} ServedMeans(log: seq<Event>, r: nat)
    requires r in Served(log)
    ensures exists i: nat, kind :: i < |log| && log[i] == Approved(r, kind)
  {
    var n := |log| - 1;
    if log[n].Approved? && log[n].r == r {
      assert log[n] == Approved(r, log[n].kind);
    } else {
      ServedMeans(log[..n], r);
      var i: nat, kind :| i < n && log[..n][i] == Approved(r, kind);
      assert log[i] == Approved(r, kind);
    }
  }

  lemma {:induction false} GrantedEarlier(log: seq<Event>, j: nat, r: nat)
    requires j <= |log| && Granted(log[..j], r)
    ensures Granted(log, r)
  {
    if j == |log| {
      assert log[..j] == log;
    } else {
      var n := |log| - 1;
      assert log[..n][..j] == log[..j] && log == log[..n] + [log[n]];
      GrantedEarlier(log[..n], j, r);
      hide Granted;
      GrantStays(log[..n], log[n], r);
    }
  }

  /** Who was answered OK without a success of its own command. */
  ghost function Ungranted(log: seq<Event>): set<nat> {
    set r | r in Served(log) && !Granted(log, r)
  }

  lemma UngrantedWasTold(log: seq<Event>, r: nat)
    requires Throughout(log, Approvals.Just) && r in Ungranted(log)
    ensures r in Told(log)
  {
    ServedMeans(log, r);
    var i: nat, kind :| i < |log| && log[i] == Approved(r, kind);
    assert Approvals.Just(log[..i], log[i]);
    Approvals.AcceptedHaveCauses(log, i, r, kind);
    var j: nat :| j < i && log[j] == Accepted(r, kind) && Caused(log[..j], r);
    hide Granted, Throughout, Approvals.Just;
    if Granted(log[..j], r) {
      GrantedEarlier(log, j, r);
    }
    ToldMeans(log, r);
  }

  lemma {:induction false} SubsetIsSmaller(a: set<nat>, b: set<nat>)
    requires a <= b
    ensures |a| <= |b|
  {
    if x :| x in a {
      SubsetIsSmaller(a - {x}, b - {x});
    }
  }

  /**
   * At every point of every run no request has been answered OK twice, and those answered without a success of their own
   * command are at most as many as the verified touches so far: no touch answers two requests.
   */
  lemma AnswersNeverOutnumberTouches(actions: seq<Action>, i: nat)
    requires i <= |Run(actions).log|
    ensures var log := Run(actions).log[..i];
      Count(log, IsApproval) == |Served(log)| && |Ungranted(log)| <= Count(log, IsTouch)
  {
    var log := Run(actions).log[..i];
    Approvals.RunKeeps(actions);
    ThroughoutPrefix(Run(actions).log, i, Approvals.Just);
    ApprovalsNeverOutnumberTouches(actions, i);
    hide Run, Throughout, Count, Served, Told, Granted;
    ServedOnce(log);
    forall r | r in Ungranted(log) ensures r in Told(log) {
      UngrantedWasTold(log, r);
    }
    SubsetIsSmaller(Ungranted(log), Told(log));
    ToldAreCounted(log);
  }

  /**
   * `PRE_AUTH` for a sudo service, in any spelling, at time `t`: an AGENT_APPROVE `q` was accepted, armed its window at
   * event `j` less than ten seconds before, and no window was armed and no lock went through in between.
   */
  ghost predicate BridgedBy(log: seq<Event>, i: nat, t: nat, j: nat, q: nat, armedAt: nat) {
    && i <= |log| && armedAt <= t < armedAt + SUDO_WINDOW
    && StandsSince(log[..i], j, WindowArmed(Arm(armedAt, SUDO_WINDOW, SUDO_SERVICES), armedAt, Some(q)))
    && (exists k: nat :: k < j && log[k] == Accepted(q, Agent) && Caused(log[..k], q))
  }

  lemma SudoWindowsAreBridged(actions: seq<Action>, i: nat, r: nat, service: string, t: nat)
    requires i < |Run(actions).log| && Run(actions).log[i] == Windowed(r, service, t)
    requires Lower(service) in SUDO_SERVICES
    ensures exists j, q, armedAt :: BridgedBy(Run(actions).log, i, t, j, q, armedAt)
  {
    var log := Run(actions).log;
    Ledger.RunKeeps(actions);
    Approvals.RunKeeps(actions);
    assert Ledger.Just(log[..i], log[i]);
    var e := Standing(log[..i]).value;
    StandingMeans(log[..i]);
    var j: nat :| StandsSince(log[..i], j, e);
    assert log[..i][j] == log[j] == e;
    assert Ledger.Just(log[..j], log[j]) && Approvals.Just(log[..j], log[j]);
    UnlockNeverAdmitsSudo(e.at, UNLOCK_WINDOW, t, service);
    UnlockNeverAdmitsSudo(e.at, SUDO_WINDOW, t, service);
    hide Lower, Standing, Arm;
    Approvals.AcceptedHaveCauses(log, j, e.agent.value, Agent);
    assert BridgedBy(log, i, t, j, e.agent.value, e.at);
  }

  lemma KillsAreCovered(log: seq<Event>)
    requires Throughout(log, Ledger.Just)
    ensures Covered(log, IsNotify, IsKill) && Covered(log, IsDialogCancel, IsAuthKill)
  {
    hide Throughout, Stored, Count, Standing, GateUnderway, AuthUnderway;
    forall i | 0 <= i < |log| && (IsKill(log[i]) || IsAuthKill(log[i])) ensures Ledger.Just(log[..i], log[i]) {
      JustAt(log, i);
    }
  }

  lemma JustAt(log: seq<Event>, i: nat)
    requires Throughout(log, Ledger.Just) && i < |log|
    ensures Ledger.Just(log[..i], log[i])
  {
    hide Ledger.Just;
  }

  /** Gates cancelled and cancels stored never exceed the notifications sent. */
  lemma CancelledGatesWereNotified(actions: seq<Action>)
    ensures var s := Run(actions);
      Count(s.log, IsKill) + (if s.coord.gatePermit then 1 else 0) <= Count(s.log, IsNotify)
  {
    Ledger.RunKeeps(actions);
    hide Run, Ledger.Just, Throughout, Stored, Count, Covered;
    KillsAreCovered(Run(actions).log);
    PermitsAreConserved(Run(actions).log, IsNotify, IsKill);
  }

  /** Authentications cancelled and dialog cancels stored never exceed the dialog cancels sent. */
  lemma CancelledAuthsWereNotified(actions: seq<Action>)
    ensures var s := Run(actions);
      Count(s.log, IsAuthKill) + (if s.coord.authPermit then 1 else 0) <= Count(s.log, IsDialogCancel)
  {
    Ledger.RunKeeps(actions);
    hide Run, Ledger.Just, Throughout, Stored, Count, Covered;
    KillsAreCovered(Run(actions).log);
    PermitsAreConserved(Run(actions).log, IsDialogCancel, IsAuthKill);
  }

  /** GATE:CANCEL with no gate in force changes nothing at all. */
  lemma IdleCancelIsInert(actions: seq<Action>)
    requires !Run(actions).pc.GateWait? && !Run(actions).pc.GateClosing?
    ensures Next(Run(actions), CancelGate) == Run(actions)
  {
    Ledger.RunKeeps(actions);
  }

  lemma KillWasNotified(log: seq<Event>, i: nat, r: nat)
    requires Throughout(log, Ledger.Just) && i < |log| && log[i] == GateKilled(r)
    ensures GateUnderway(log[..i]) == Some(r)
    ensures exists j: nat :: StoredAt(log[..i], j, IsNotify, IsKill) && (log[j] == Notified(true) ==> GateUnderway(log[..j]).Some?)
  {
    assert Ledger.Just(log[..i], log[i]);
    StoredMeans(log[..i], IsNotify, IsKill);
    var j: nat :| StoredAt(log[..i], j, IsNotify, IsKill);
    assert log[..i][j] == log[j];
    assert Ledger.Just(log[..j], log[j]);
    hide Throughout, Ledger.Just, GateUnderway, Stored;
  }

  /**
   * Every cancelled gate was the one in force and died of a notification of its own; a checked one was sent
   * while some gate was in force.
   */
  lemma KillsAreNotified(actions: seq<Action>, i: nat, r: nat)
    requires i < |Run(actions).log| && Run(actions).log[i] == GateKilled(r)
    ensures GateUnderway(Run(actions).log[..i]) == Some(r)
    ensures exists j: nat :: StoredAt(Run(actions).log[..i], j, IsNotify, IsKill)
                             && (Run(actions).log[j] == Notified(true) ==> GateUnderway(Run(actions).log[..j]).Some?)
  {
    Ledger.RunKeeps(actions);
    hide Run, Throughout, Ledger.Just, GateUnderway, Stored, StoredAt;
    KillWasNotified(Run(actions).log, i, r);
  }

  /** Every cancelled authentication was the one in force and died of a dialog cancel of its own, whoever sent it. */
  lemma AuthKillsAreNotified(actions: seq<Action>, i: nat, r: nat)
    requires i < |Run(actions).log| && Run(actions).log[i] == AuthKilled(r)
    ensures AuthUnderway(Run(actions).log[..i]) == Some(r)
    ensures exists j: nat :: StoredAt(Run(actions).log[..i], j, IsDialogCancel, IsAuthKill)
  {
    var log := Run(actions).log;
    Ledger.RunKeeps(actions);
    assert Ledger.Just(log[..i], log[i]);
    StoredMeans(log[..i], IsDialogCancel, IsAuthKill);
    hide Run, Throughout, Ledger.Just, AuthUnderway, Stored;
  }
}
