/** The log tail served to viewers: a ring, a broadcast channel, and subscribe-before-snapshot (`logbuf.rs`, `socket.rs`). */
module LogRing {
  import opened Wire

  const RING: nat := 500
  const CHANNEL: nat := 256

  /** The last `n` elements. */
  function Last<T>(s: seq<T>, n: nat): (r: seq<T>)
    ensures |r| == if |s| < n then |s| else n
    ensures r == s[|s| - |r|..]
  {
    if |s| <= n then s else s[|s| - n..]
  }

  function PushRing(ring: seq<string>, line: string): seq<string> {
    (if |ring| == RING then ring[1..] else ring) + [line]
  }

  /** The bounded push keeps a ring the last 500 lines of whatever was pushed. */
  lemma PushKeepsLast(pushed: seq<string>, line: string)
    ensures PushRing(Last(pushed, RING), line) == Last(pushed + [line], RING)
  {
  }

  predicate NonEmpty(line: string) {
    line != []
  }

  lemma FilterNext(lines: seq<string>, i: nat)
    requires i < |lines|
    ensures Filter(lines[..i + 1], NonEmpty) == if lines[i] == [] then Filter(lines[..i], NonEmpty) else Filter(lines[..i], NonEmpty) + [lines[i]]
  {
    assert lines[..i + 1][..i] == lines[..i];
  }

  class LogSink {
    var ring: seq<string>
    var sent: seq<string>

    constructor ()
      ensures ring == [] && sent == []
    {
      ring, sent := [], [];
    }

    method Push(line: string)
      modifies this`ring
      ensures ring == PushRing(old(ring), line)
    {
      if |ring| == RING {
        ring := ring[1..];
      }
      ring := ring + [line];
    }

    /** One write: every non-empty line goes to the ring and to whoever is watching. */
    method Emit(lines: seq<string>)
      requires |ring| <= RING
      modifies this
      ensures ring == Last(old(ring) + Filter(lines, NonEmpty), 500)
      ensures sent == old(sent) + Filter(lines, NonEmpty)
    {
      ghost var kept: seq<string> := [];
      for i := 0 to |lines|
        invariant kept == Filter(lines[..i], NonEmpty)
        invariant ring == Last(old(ring) + kept, RING) && sent == old(sent) + kept
      {
        FilterNext(lines, i);
        hide Filter, Last;
        if lines[i] == [] {
          continue;
        }
        PushKeepsLast(old(ring) + kept, lines[i]);
        Associate(old(ring), kept, [lines[i]]);
        Associate(old(sent), kept, [lines[i]]);
        Push(lines[i]);
        sent := sent + [lines[i]];
        kept := kept + [lines[i]];
      }
      assert lines[..|lines|] == lines;
    }

    method Snapshot() returns (lines: seq<string>)
      ensures lines == ring
    {
      lines := ring;
    }
  }

  // ---- Emitters and a viewer, interleaved ----

  /** A viewer: where its subscription starts, where it reads next, what it got and what it was told it missed. */
  datatype Viewer = Viewer(from: nat, cursor: nat, delivered: seq<nat>, dropped: seq<nat>)

  /**
   * Lines are named by the order of their pushes. `inFlight` are pushed but not yet broadcast; `channel` lists the
   * broadcasts in their order, which need not be that of the pushes.
   */
  datatype State = State(
    pushed: seq<string>, ring: seq<string>, inFlight: set<nat>, channel: seq<nat>,
    viewer: Option<Viewer>, snapshot: Option<seq<string>>, snapshotAt: nat)

  datatype Action = Push(line: string) | Send(i: nat) | Subscribe | Snapshot | Receive

  const START: State := State([], [], {}, [], None, None, 0)

  /** The positions `from`, ..., `to - 1`. */
  function Positions(from: nat, to: nat): (r: seq<nat>)
    requires from <= to
    ensures |r| == to - from && forall k :: 0 <= k < |r| ==> r[k] == from + k
  {
    seq(to - from, k requires 0 <= k < to - from => from + k)
  }

  /** A receiver more than 256 broadcasts behind is told how many it missed and skips to the oldest one kept. */
  function ReceiveStep(channel: seq<nat>, v: Viewer): Viewer {
    if v.cursor >= |channel| then v
    else if |channel| - v.cursor > CHANNEL then
      v.(cursor := |channel| - CHANNEL, dropped := v.dropped + Positions(v.cursor, |channel| - CHANNEL))
    else v.(cursor := v.cursor + 1, delivered := v.delivered + [v.cursor])
  }

  function Next(s: State, a: Action): State {
    match a
    case Push(line) =>
      if line == [] then s
      else s.(pushed := s.pushed + [line], ring := PushRing(s.ring, line), inFlight := s.inFlight + {|s.pushed|})
    case Send(i) => if i in s.inFlight then s.(inFlight := s.inFlight - {i}, channel := s.channel + [i]) else s
    case Subscribe => if s.viewer.None? then s.(viewer := Some(Viewer(|s.channel|, |s.channel|, [], []))) else s
    case Snapshot => if s.snapshot.None? then s.(snapshot := Some(s.ring), snapshotAt := |s.pushed|) else s
    case Receive => if s.viewer.Some? then s.(viewer := Some(ReceiveStep(s.channel, s.viewer.value))) else s
  }

  function Run(actions: seq<Action>): State {
    if actions == [] then START else Next(Run(actions[..|actions| - 1]), actions[|actions| - 1])
  }

  /** Broadcast number `p` has reached the viewer, been reported as missed, or still waits for it. */
  predicate Accounted(v: Viewer, p: nat) {
    p in v.delivered || p in v.dropped || p >= v.cursor
  }

  ghost predicate ViewerOk(v: Viewer, channel: seq<nat>) {
    && v.from <= v.cursor <= |channel|
    && (forall p: nat :: v.from <= p < |channel| ==> Accounted(v, p))
    && (forall k :: 0 <= k < |v.delivered| ==> v.from <= v.delivered[k] < v.cursor)
    && (forall j, k :: 0 <= j < k < |v.delivered| ==> v.delivered[j] < v.delivered[k])
  }

  /** Every pushed line is on its way to the channel or in it. */
  ghost predicate LinesOk(s: State) {
    s.ring == Last(s.pushed, RING) && OnTheWay(|s.pushed|, s.inFlight, s.channel)
  }

  predicate OnTheWay(count: nat, inFlight: set<nat>, channel: seq<nat>) {
    && (forall i :: 0 <= i < count ==> i in inFlight || i in channel)
    && (forall i | i in inFlight :: i < count)
  }

  lemma OneMoreOnTheWay(count: nat, inFlight: set<nat>, channel: seq<nat>)
    requires OnTheWay(count, inFlight, channel)
    ensures OnTheWay(count + 1, inFlight + {count}, channel)
  {
  }

  /** Whatever was pushed after the snapshot is broadcast, if at all, after the subscription. */
  ghost predicate LaterIsLive(s: State) {
    s.viewer.Some? && s.snapshot.Some? ==>
      forall p: nat :: p < |s.channel| && s.channel[p] >= s.snapshotAt ==> p >= s.viewer.value.from
  }

  ghost predicate Inv(s: State) {
    && LinesOk(s)
    && (s.viewer.Some? ==> ViewerOk(s.viewer.value, s.channel))
    && (s.snapshot.Some? ==> s.snapshotAt <= |s.pushed| && s.snapshot.value == Last(s.pushed[..s.snapshotAt], RING))
    && (forall p: nat :: p < |s.channel| ==> s.channel[p] < |s.pushed|)
  }

  lemma PushKeepsLines(s: State, line: string)
    requires LinesOk(s) && line != []
    ensures LinesOk(Next(s, Push(line)))
  {
    PushKeepsLast(s.pushed, line);
    OneMoreOnTheWay(|s.pushed|, s.inFlight, s.channel);
    hide PushRing, Last, OnTheWay;
  }

  lemma PushKeeps(s: State, line: string)
    requires Inv(s) && line != []
    ensures Inv(Next(s, Push(line)))
  {
    PushKeepsLines(s, line);
    var t := Next(s, Push(line));
    hide PushRing, Last, ViewerOk, LinesOk;
    if s.snapshot.Some? {
      assert t.pushed[..s.snapshotAt] == s.pushed[..s.snapshotAt];
    }
  }

  lemma SendKeeps(s: State, i: nat)
    requires Inv(s) && i in s.inFlight
    ensures Inv(Next(s, Send(i)))
  {
    var t := Next(s, Send(i));
    assert t.channel[|s.channel|] == i;
    assert forall x :: x in s.channel ==> x in t.channel;
  }

  lemma ReceiveKeeps(channel: seq<nat>, v: Viewer)
    requires ViewerOk(v, channel)
    ensures ViewerOk(ReceiveStep(channel, v), channel)
  {
    var w := ReceiveStep(channel, v);
    forall p: nat | v.from <= p < |channel| ensures Accounted(w, p) {
      assert Accounted(v, p);
      if v.cursor <= p < w.cursor {
        if |channel| - v.cursor > CHANNEL {
          var skipped := Positions(v.cursor, |channel| - CHANNEL);
          assert skipped[p - v.cursor] == p;
        } else {
          assert w.delivered[|v.delivered|] == p;
        }
      }
    }
  }

  lemma NextKeeps(s: State, a: Action)
    requires Inv(s)
    ensures Inv(Next(s, a))
  {
    match a
    case Push(line) =>
      if line != [] {
        PushKeeps(s, line);
      }
    case Send(i) =>
      if i in s.inFlight {
        SendKeeps(s, i);
      }
    case Receive =>
      if s.viewer.Some? {
        ReceiveKeeps(s.channel, s.viewer.value);
      }
    case Snapshot =>
      assert s.pushed[..|s.pushed|] == s.pushed;
    case Subscribe =>
  }

  /** Reported as missed only when 256 newer broadcasts were there to be read. */
  ghost predicate DropsAreOld(s: State) {
    s.viewer.Some? ==> forall p | p in s.viewer.value.dropped :: p + 256 < |s.channel|
  }

  lemma {:induction false} RunDropsOld(actions: seq<Action>)
    ensures DropsAreOld(Run(actions))
  {
    if actions != [] {
      RunDropsOld(actions[..|actions| - 1]);
    }
  }

  function Reads(n: nat): (r: seq<Action>)
    ensures |r| == n
  {
    seq(n, _ => Receive)
  }

  lemma {:induction false} ReadsOn(actions: seq<Action>, n: nat)
    requires Run(actions).viewer.Some?
    ensures var s, t := Run(actions), Run(actions + Reads(n));
      && t.channel == s.channel && t.viewer.Some? && s.viewer.value.cursor <= t.viewer.value.cursor
      && (t.viewer.value.cursor < |t.channel| ==> t.viewer.value.cursor >= s.viewer.value.cursor + n)
  {
    if n > 0 {
      ReadsOn(actions, n - 1);
      assert actions + Reads(n) == (actions + Reads(n - 1)) + [Receive];
      RunNext(actions + Reads(n - 1), Receive);
      hide Run;
    } else {
      assert actions + Reads(0) == actions;
    }
  }

  /** A viewer that keeps reading has, after as many reads as there are broadcasts, got or been told of every one since it subscribed. */
  lemma CatchesUp(actions: seq<Action>)
    requires Run(actions).viewer.Some?
    ensures var t := Run(actions + Reads(|Run(actions).channel|));
      && t.channel == Run(actions).channel && t.viewer.Some?
      && forall p: nat :: t.viewer.value.from <= p < |t.channel| ==>
           p in t.viewer.value.delivered || (p in t.viewer.value.dropped && p + 256 < |t.channel|)
  {
    var n := |Run(actions).channel|;
    ReadsOn(actions, n);
    RunKeeps(actions + Reads(n));
    RunDropsOld(actions + Reads(n));
    var t := Run(actions + Reads(n));
    var v := t.viewer.value;
    assert v.cursor >= |t.channel| && v.from <= v.cursor;
    forall p: nat | v.from <= p < |t.channel| ensures p in v.delivered || (p in v.dropped && p + 256 < |t.channel|) {
      assert Accounted(v, p);
      hide *;
    }
  }

  /** Subscribed first, snapshotted second. */
  predicate SubscribedFirst(actions: seq<Action>) {
    actions == [] || (
      var n := |actions| - 1;
      SubscribedFirst(actions[..n]) && (actions[n] == Snapshot ==> Run(actions[..n]).viewer.Some?))
  }

  lemma {:induction false} RunKeeps(actions: seq<Action>)
    ensures Inv(Run(actions))
  {
    if actions != [] {
      RunKeeps(actions[..|actions| - 1]);
      NextKeeps(Run(actions[..|actions| - 1]), actions[|actions| - 1]);
    }
  }

  lemma {:induction false} RunKeepsLater(actions: seq<Action>)
    requires SubscribedFirst(actions)
    ensures LaterIsLive(Run(actions))
    ensures Run(actions).snapshot.Some? ==> Run(actions).viewer.Some?
  {
    if actions != [] {
      var n := |actions| - 1;
      var s := Run(actions[..n]);
      RunKeepsLater(actions[..n]);
      RunKeeps(actions[..n]);
      match actions[n]
      case Send(i) => assert s.viewer.Some? ==> ViewerOk(s.viewer.value, s.channel);
      case Snapshot => assert forall p: nat :: p < |s.channel| ==> s.channel[p] < |s.pushed|;
      case _ =>
    }
  }

  /** Line `i` is at its place in the snapshot. */
  predicate InSnapshot(s: State, i: nat) {
    && s.snapshot.Some? && s.snapshotAt - |s.snapshot.value| <= i < s.snapshotAt && i < |s.pushed|
    && 0 <= i - (s.snapshotAt - |s.snapshot.value|)
    && s.snapshot.value[i - (s.snapshotAt - |s.snapshot.value|)] == s.pushed[i]
  }

  /** Line `i` is broadcast number `p` of the live stream: delivered, reported as missed, or waiting. */
  predicate Live(s: State, i: nat, p: nat) {
    s.viewer.Some? && p < |s.channel| && s.channel[p] == i && p >= s.viewer.value.from && Accounted(s.viewer.value, p)
  }

  /**
   * A viewer that subscribes before it takes its snapshot loses nothing silently: every line is in the snapshot, in the
   * live stream or its reported gaps, still on its way there, or was pushed out of the ring by 500 newer ones before
   * the snapshot was taken.
   */
  lemma NothingIsLost(actions: seq<Action>, i: nat)
    requires SubscribedFirst(actions) && Run(actions).snapshot.Some? && i < |Run(actions).pushed|
    ensures var s := Run(actions);
      || InSnapshot(s, i)
      || i in s.inFlight
      || (exists p: nat :: Live(s, i, p))
      || i + RING < s.snapshotAt
  {
    var s := Run(actions);
    RunKeeps(actions);
    RunKeepsLater(actions);
    if i >= s.snapshotAt && i !in s.inFlight {
      var p: nat :| p < |s.channel| && s.channel[p] == i;
      assert Accounted(s.viewer.value, p);
      assert Live(s, i, p);
    } else if i < s.snapshotAt && i + RING >= s.snapshotAt {
      var shown := s.pushed[..s.snapshotAt];
      assert s.snapshot.value == shown[|shown| - |s.snapshot.value|..];
      assert InSnapshot(s, i);
    }
  }

  /** The live stream repeats nothing and keeps the order of the broadcasts. */
  lemma StreamIsInOrder(actions: seq<Action>)
    requires Run(actions).viewer.Some?
    ensures var v := Run(actions).viewer.value;
      forall j, k :: 0 <= j < k < |v.delivered| ==> v.from <= v.delivered[j] < v.delivered[k]
  {
    RunKeeps(actions);
  }

  lemma RunNext(actions: seq<Action>, a: Action)
    ensures Run(actions + [a]) == Next(Run(actions), a)
  {
    assert (actions + [a])[..|actions|] == actions;
  }

  /** Taken the other way round, a line emitted between snapshot and subscription is in neither. */
  lemma SnapshotFirstLoses(line: string)
    requires line != []
    ensures var s := Run([Snapshot, Push(line), Send(0), Subscribe]);
      && s.snapshot == Some([]) && s.pushed == [line] && s.inFlight == {} && !InSnapshot(s, 0)
      && forall p: nat :: !Live(s, 0, p)
  {
    var a1: seq<Action> := [Snapshot];
    var a2 := a1 + [Push(line)];
    var a3 := a2 + [Send(0)];
    RunNext([], Snapshot);
    RunNext(a1, Push(line));
    RunNext(a2, Send(0));
    RunNext(a3, Subscribe);
    assert [] + [Snapshot] == a1 && a3 + [Subscribe] == [Snapshot, Push(line), Send(0), Subscribe];
    assert Run([]) == START;
    var s1 := START.(snapshot := Some([]));
    assert Run(a1) == s1;
    var s2 := s1.(pushed := [line], ring := [line], inFlight := {0});
    assert Run(a2) == s2;
    var s3 := s2.(inFlight := {}, channel := [0]);
    assert Run(a3) == s3;
  }
}
