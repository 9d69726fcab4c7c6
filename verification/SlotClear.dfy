/** Unpairing one of the device's two host slots (`dual_host.rs`, `socket.rs`). */
module SlotClear {
  import opened Wire
  import Link
  import Worker

  const SLOT_STATUS: byte := 0x39
  const SLOT_CLEAR: byte := 0x3C
  const OK_CODE: byte := 0x00
  const NOT_PAIRED: byte := 0xF2

  // ---- dual_host.rs ----

  datatype SlotStatus = Supported(bitmap: nat, active: byte) | Unsupported {
    /** The slot in use is empty and the other one is taken. */
    predicate IsSecondHost()
      requires Supported? ==> active == 1 || active == 2
    {
      Supported? && bitmap != 0 && !Occupied(bitmap, active)
    }
  }

  /** Bit `slot - 1` of the occupancy bitmap. */
  predicate Occupied(bitmap: nat, slot: byte)
    requires slot == 1 || slot == 2
  {
    (if slot == 1 then bitmap else bitmap / 2) % 2 == 1
  }

  function ParseSlotStatus(frame: Bytes): (r: SlotStatus)
    ensures r.Supported? ==> (r.active == 1 || r.active == 2) && r.bitmap < 4
  {
    if |frame| < 4 || frame[0] != SLOT_STATUS || frame[1] != OK_CODE then Unsupported
    else if frame[3] != 1 && frame[3] != 2 then Unsupported
    else Supported(frame[2] % 4, frame[3])
  }

  datatype ClearPath = Own | Other(slot: byte) | InvalidSlot | PathUnsupported

  function ResolveClearPath(target: Option<byte>, status: SlotStatus): ClearPath {
    match target
    case None => Own
    case Some(slot) =>
      if slot != 1 && slot != 2 then InvalidSlot
      else match status
        case Supported(_, active) => if slot == active then Own else Other(slot)
        case Unsupported => PathUnsupported
  }

  datatype Ack = AckCleared | AckSlotUnpaired | AckRefused | AckUnrecognised

  function ClassifyAck(first: byte, rest: Bytes): Ack {
    if first != SLOT_CLEAR || rest == [] then AckUnrecognised
    else if rest[0] == OK_CODE then AckCleared
    else if rest[0] == NOT_PAIRED then AckSlotUnpaired
    else AckRefused
  }

  // ---- The device ----

  /** Two slots, each empty or holding one host's key, and the one it talks through. */
  datatype Device = Device(one: Option<nat>, two: Option<nat>, active: byte) {
    predicate Valid() {
      active == 1 || active == 2
    }

    function At(slot: byte): Option<nat> {
      if slot == 1 then one else two
    }

    function Erase(slot: byte): Device {
      if slot == 1 then this.(one := None) else this.(two := None)
    }
  }

  /** How the device takes a clear: `refusal` refuses it outright, `touched` passes its fingerprint gate. */
  datatype Mood = Mood(refusal: Option<byte>, touched: bool) {
    predicate Valid() {
      refusal.Some? ==> refusal.value != OK_CODE && refusal.value != NOT_PAIRED
    }
  }

  /** An empty active slot refuses everything; its own slot goes at once, the other one only behind a finger. */
  function DeviceClear(d: Device, target: Option<byte>, mood: Mood): (Device, Bytes) {
    if d.At(d.active).None? then (d, [SLOT_CLEAR, NOT_PAIRED])
    else if mood.refusal.Some? then (d, [SLOT_CLEAR, mood.refusal.value])
    else if target.Some? && target.value != d.active then (if mood.touched then d.Erase(target.value) else d, [Link.WAIT_FP])
    else (d.Erase(d.active), [SLOT_CLEAR, OK_CODE])
  }

  /** The link passes the answer on, loses it to the reboot, or delivers something unrecognisable instead. */
  datatype Delivery = Intact | Lost | Garbled(frame: Bytes) {
    predicate Valid() {
      Garbled? ==> frame != [] && ClassifyAck(frame[0], frame[1..]).AckUnrecognised?
    }

    function Deliver(answer: Bytes): Option<Bytes> {
      match this
      case Intact => Some(answer)
      case Lost => None
      case Garbled(frame) => Some(frame)
    }
  }

  /** The device's SLOT_STATUS answer. */
  function StatusFrame(d: Device): Bytes {
    [SLOT_STATUS, OK_CODE, (if d.one.Some? then 1 else 0) + (if d.two.Some? then 2 else 0), d.active]
  }

  /** The host reads back which slots are taken, and takes itself for a second host exactly when it would be one. */
  lemma StatusReadsBack(d: Device)
    requires d.Valid()
    ensures var s := ParseSlotStatus(StatusFrame(d));
      && s.Supported? && s.active == d.active
      && (Occupied(s.bitmap, 1) <==> d.one.Some?) && (Occupied(s.bitmap, 2) <==> d.two.Some?)
      && (s.IsSecondHost() <==> d.At(d.active).None? && d.At(3 - d.active).Some?)
  {
    assert StatusFrame(d)[2] % 4 == StatusFrame(d)[2];
  }

  // ---- socket.rs ----

  datatype Response = Success(msg: string) | Failure(msg: string)

  /** This computer's side: its key, and whether a verified challenge proved it. */
  datatype Host = Host(pairing: Option<nat>, connected: bool, deviceVerified: bool, challengeVerified: bool) {
    function Forget(): Host {
      this.(pairing := None, deviceVerified := false, challengeVerified := false)
    }
  }

  /**
   * The link under a gated command: what the worker's two waits meet, given the device's answer and, if it asked for a
   * finger, its report on that. Any frames may arrive in any order, late answers to earlier commands and made-up ones
   * among them, and any picks be made.
   */
  type Carrier = (Bytes, Option<Bytes>) -> seq<Worker.Choice>

  /**
   * Everything outside the daemon that one request meets: what SLOT_STATUS brought back, if anything; the device; on the
   * own path the fate of its one answer; on the other path the link.
   */
  datatype World = World(status: Option<Bytes>, device: Device, mood: Mood, delivery: Delivery, carrier: Carrier) {
    predicate Valid() {
      device.Valid() && mood.Valid() && delivery.Valid()
    }
  }

  datatype Outcome = Outcome(host: Host, device: Device, response: Response)

  function OwnOutcome(h: Host, w: World, target: Option<byte>): Outcome {
    var (device, answer) := DeviceClear(w.device, target, w.mood);
    match w.delivery.Deliver(answer)
    case None => Outcome(h.Forget(), device, Success("CLEARED_UNCONFIRMED"))
    case Some(frame) =>
      if frame == [] then Outcome(h.Forget(), device, Success("CLEARED_UNCONFIRMED"))
      else match ClassifyAck(frame[0], frame[1..])
        case AckCleared => Outcome(h.Forget(), device, Success("CLEARED"))
        case AckSlotUnpaired => Outcome(h.Forget(), device, Success("CLEARED_SLOT_UNPAIRED"))
        case AckRefused => Outcome(h, device, Failure("SLOT_CLEAR_REFUSED"))
        case AckUnrecognised => Outcome(h.Forget(), device, Success("CLEARED_UNCONFIRMED"))
  }

  /** The frame that ends a fingerprint gate the device is really in: a success, or its timeout. */
  function GateReport(answer: Bytes, mood: Mood): Option<Bytes> {
    if answer != [Link.WAIT_FP] then None else Some(if mood.touched then [OK_CODE] else [Link.TIMEOUT])
  }

  /** What the gated command meets, up to its deadline. */
  function Stretch(w: World, slot: byte): seq<Worker.Choice> {
    var answer := DeviceClear(w.device, Some(slot), w.mood).1;
    w.carrier(answer, GateReport(answer, w.mood)) + [Worker.Expired]
  }

  predicate Succeeded(r: Worker.Wait<Result<Worker.Reply, Worker.Failure>>) {
    r.Ended? && r.value.Ok?
  }

  /** The far slot goes through the worker's gated command; whatever that takes for a success is reported as one. */
  function OtherOutcome(h: Host, w: World, slot: byte): Outcome {
    var device := DeviceClear(w.device, Some(slot), w.mood).0;
    if Succeeded(Worker.Gated(Stretch(w, slot))) then Outcome(h, device, Success("CLEARED"))
    else Outcome(h, device, Failure("SLOT_CLEAR_FAILED:"))
  }

  function Clear(h: Host, w: World, target: Option<byte>): Outcome {
    if !h.connected then
      if target.None? then Outcome(h.Forget(), w.device, Success("CLEARED_LOCAL_ONLY"))
      else Outcome(h, w.device, Failure("NOT_CONNECTED"))
    else if target.Some? && w.status.None? then Outcome(h, w.device, Failure("SLOT_STATUS_FAILED:"))
    else
      var status := if target.Some? then ParseSlotStatus(w.status.value) else Unsupported;
      match ResolveClearPath(target, status)
      case Own => OwnOutcome(h, w, target)
      case Other(slot) => OtherOutcome(h, w, slot)
      case InvalidSlot => Outcome(h, w.device, Failure("INVALID_SLOT"))
      case PathUnsupported => Outcome(h, w.device, Failure("DUAL_HOST_UNSUPPORTED"))
  }

  class Daemon {
    var pairing: Option<nat>
    var connected: bool
    var deviceVerified: bool
    var challengeVerified: bool

    function View(): Host
      reads this
    {
      Host(pairing, connected, deviceVerified, challengeVerified)
    }

    constructor (pairing: Option<nat>, connected: bool)
      ensures View() == Host(pairing, connected, false, false)
    {
      this.pairing, this.connected, deviceVerified, challengeVerified := pairing, connected, false, false;
    }

    method ClearLocalPairing()
      modifies this
      ensures View() == old(View()).Forget()
    {
      pairing, deviceVerified, challengeVerified := None, false, false;
    }

    method ClearOwnSlot(w: World, target: Option<byte>) returns (response: Response)
      modifies this
      ensures var o := OwnOutcome(old(View()), w, target); View() == o.host && response == o.response
    {
      var answer := w.delivery.Deliver(DeviceClear(w.device, target, w.mood).1);
      if answer.None? || answer.value == [] {
        ClearLocalPairing();
        return Success("CLEARED_UNCONFIRMED");
      }
      match ClassifyAck(answer.value[0], answer.value[1..])
      case AckCleared =>
        ClearLocalPairing();
        response := Success("CLEARED");
      case AckSlotUnpaired =>
        ClearLocalPairing();
        response := Success("CLEARED_SLOT_UNPAIRED");
      case AckRefused =>
        response := Failure("SLOT_CLEAR_REFUSED");
      case AckUnrecognised =>
        ClearLocalPairing();
        response := Success("CLEARED_UNCONFIRMED");
    }

    method HandleSlotClear(w: World, target: Option<byte>) returns (response: Response)
      modifies this
      ensures var o := Clear(old(View()), w, target); View() == o.host && response == o.response
    {
      if !connected {
        if target.None? {
          ClearLocalPairing();
          return Success("CLEARED_LOCAL_ONLY");
        }
        return Failure("NOT_CONNECTED");
      }
      var status := Unsupported;
      if target.Some? {
        if w.status.None? {
          return Failure("SLOT_STATUS_FAILED:");
        }
        status := ParseSlotStatus(w.status.value);
      }
      match ResolveClearPath(target, status)
      case Own =>
        response := ClearOwnSlot(w, target);
      case Other(slot) =>
        var state := new Worker.BleState();
        var sent, _ := state.SendFpGatedInner(true, Stretch(w, slot));
        response := if Succeeded(sent) then Success("CLEARED") else Failure("SLOT_CLEAR_FAILED:");
      case InvalidSlot =>
        response := Failure("INVALID_SLOT");
      case PathUnsupported =>
        response := Failure("DUAL_HOST_UNSUPPORTED");
    }
  }

  // ---- What it amounts to ----

  /** This run took host `key`'s slot away. */
  predicate Erased(before: Device, after: Device, key: nat) {
    (before.one == Some(key) || before.two == Some(key)) && after.one != Some(key) && after.two != Some(key)
  }

  /** A SLOT_STATUS answer that names `slot` as the one the device talks through. */
  predicate ReportsActive(frame: Bytes, slot: byte) {
    |frame| >= 4 && frame[0] == 0x39 && frame[1] == 0x00 && frame[3] == slot && (slot == 1 || slot == 2)
  }

  /** The request is about the slot in use: it names none, or the one the device reports. */
  predicate AsksOwn(h: Host, w: World, target: Option<byte>) {
    h.connected && (target.Some? ==> w.status.Some? && ReportsActive(w.status.value, target.value))
  }

  /** The request names one of the two slots, and the device reports the other one. */
  predicate AsksOther(h: Host, w: World, target: Option<byte>) {
    && h.connected && target.Some? && w.status.Some? && (target.value == 1 || target.value == 2)
    && ReportsActive(w.status.value, 3 - target.value)
  }

  /** The device's refusal reached the host. */
  predicate RefusalDelivered(w: World) {
    w.delivery.Intact? && w.device.At(w.device.active).Some? && w.mood.refusal.Some?
  }

  lemma OwnLeavesNoGhost(h: Host, w: World, target: Option<byte>, key: nat)
    requires w.Valid() && h.pairing == Some(key)
    ensures var o := OwnOutcome(h, w, target);
      && (Erased(w.device, o.device, key) ==> o.host.pairing == None)
      && (if RefusalDelivered(w) then o == Outcome(h, w.device, Failure("SLOT_CLEAR_REFUSED"))
          else o.host == Host(None, h.connected, false, false))
  {
  }

  /** Which way a connected request goes, by the bytes of the request and of the status frame. */
  lemma PathTaken(h: Host, w: World, target: Option<byte>)
    requires h.connected
    ensures AsksOwn(h, w, target) ==> Clear(h, w, target) == OwnOutcome(h, w, target)
    ensures AsksOther(h, w, target) ==> Clear(h, w, target) == OtherOutcome(h, w, target.value)
    ensures !AsksOwn(h, w, target) && !AsksOther(h, w, target) ==>
      Clear(h, w, target).host == h && Clear(h, w, target).device == w.device && Clear(h, w, target).response.Failure?
  {
    hide OwnOutcome, OtherOutcome;
  }

  /**
   * Clearing the slot in use, whatever the device does and the link loses: no host stays paired with a slot that this run
   * erased, and the local pairing survives exactly on an explicit refusal that got through, with nothing changed anywhere.
   */
  lemma OwnClearLeavesNoGhost(h: Host, w: World, target: Option<byte>, key: nat)
    requires w.Valid() && h.pairing == Some(key) && AsksOwn(h, w, target)
    ensures var o := Clear(h, w, target);
      && (Erased(w.device, o.device, key) ==> o.host.pairing == None)
      && (if RefusalDelivered(w) then o == Outcome(h, w.device, Failure("SLOT_CLEAR_REFUSED"))
          else o.host == Host(None, true, false, false))
  {
    PathTaken(h, w, target);
    OwnLeavesNoGhost(h, w, target, key);
    hide Clear, OwnOutcome, OtherOutcome, Erased, RefusalDelivered;
  }

  /** What the daemon answers about the slot in use, when the device presents the slot it reported. */
  lemma OwnClearAnswers(h: Host, w: World, target: Option<byte>)
    requires w.Valid() && AsksOwn(h, w, target) && (target.Some? ==> target.value == w.device.active)
    ensures var o := Clear(h, w, target);
      if w.device.At(w.device.active).None? then
        o.device == w.device && o.response == Success(if w.delivery.Intact? then "CLEARED_SLOT_UNPAIRED" else "CLEARED_UNCONFIRMED")
      else if w.mood.refusal.Some? then
        o.device == w.device && o.response == if w.delivery.Intact? then Failure("SLOT_CLEAR_REFUSED") else Success("CLEARED_UNCONFIRMED")
      else
        && o.device.At(w.device.active).None? && o.device.At(3 - w.device.active) == w.device.At(3 - w.device.active)
        && o.response == Success(if w.delivery.Intact? then "CLEARED" else "CLEARED_UNCONFIRMED")
  {
    PathTaken(h, w, target);
    hide Clear, OtherOutcome;
  }

  /**
   * Over the whole request there is one way to end up paired with an erased slot: the request named a slot that holds this
   * host's own key while the device reports the other one as its active slot.
   */
  lemma GhostOnlyByNamingOwnSlot(h: Host, w: World, target: Option<byte>, key: nat)
    requires w.Valid() && h.pairing == Some(key) && h.connected
    ensures var o := Clear(h, w, target);
      (Erased(w.device, o.device, key) && o.host.pairing.Some?) <==>
        && AsksOther(h, w, target)
        && w.device.At(target.value) == Some(key) && w.device.At(3 - target.value) != Some(key)
        && w.device.At(w.device.active).Some? && w.mood.refusal.None?
        && (w.mood.touched || target.value == w.device.active)
  {
    PathTaken(h, w, target);
    hide Clear;
    if AsksOwn(h, w, target) {
      OwnLeavesNoGhost(h, w, target, key);
      hide OwnOutcome;
    }
  }

  /** The five answers that need no device, each by the request and the status frame; but for the first nothing changes. */
  lemma WhyNothingIsSent(h: Host, w: World, target: Option<byte>)
    ensures var o := Clear(h, w, target);
      && (o.response == Success("CLEARED_LOCAL_ONLY") <==> !h.connected && target.None?)
      && (o.response == Failure("NOT_CONNECTED") <==> !h.connected && target.Some?)
      && (o.response == Failure("SLOT_STATUS_FAILED:") <==> h.connected && target.Some? && w.status.None?)
      && (o.response == Failure("INVALID_SLOT") <==> h.connected && target.Some? && w.status.Some? && target.value != 1 && target.value != 2)
      && (o.response == Failure("DUAL_HOST_UNSUPPORTED") <==>
          && h.connected && target.Some? && w.status.Some? && (target.value == 1 || target.value == 2)
          && !ReportsActive(w.status.value, 1) && !ReportsActive(w.status.value, 2))
      && (!h.connected ==> o.device == w.device && o.host == if target.None? then Host(None, false, false, false) else h)
  {
    StatusesDiffer();
    hide DeviceClear, ClassifyAck;
  }

  lemma StatusesDiffer()
    ensures |"CLEARED"| == 7 && |"CLEARED_UNCONFIRMED"| == 19 && |"CLEARED_LOCAL_ONLY"| == 18 && |"CLEARED_SLOT_UNPAIRED"| == 21
    ensures |"NOT_CONNECTED"| == 13 && |"SLOT_STATUS_FAILED:"| == 19 && |"INVALID_SLOT"| == 12 && |"DUAL_HOST_UNSUPPORTED"| == 21
    ensures |"SLOT_CLEAR_REFUSED"| == 18 && |"SLOT_CLEAR_FAILED:"| == 18
  {
  }

  // ---- The client's reading of the answer ----

  function Split(s: string): (r: seq<string>)
    ensures r != []
  {
    if s == [] then [[]]
    else
      var rest := Split(s[1..]);
      if s[0] == ':' then [[]] + rest else [[s[0]] + rest[0]] + rest[1..]
  }

  function Serialize(r: Response): string {
    match r
    case Success(msg) => "OK:" + msg
    case Failure(msg) => "ERROR:" + msg
  }

  datatype UnpairOutcome = Cleared | ClearedUnconfirmed | ClearedLocalOnly | ClearedSlotUnpaired | Refused | Failed

  function ClassifyUnpairResponse(line: string): UnpairOutcome {
    var parts := Split(Trim(line));
    if |parts| < 2 then Failed
    else if parts[0] == "OK" then
      if parts[1] == "CLEARED" then Cleared
      else if parts[1] == "CLEARED_UNCONFIRMED" then ClearedUnconfirmed
      else if parts[1] == "CLEARED_LOCAL_ONLY" then ClearedLocalOnly
      else if parts[1] == "CLEARED_SLOT_UNPAIRED" then ClearedSlotUnpaired
      else Failed
    else if parts[0] == "ERROR" && parts[1] == "SLOT_CLEAR_REFUSED" then Refused
    else Failed
  }

  lemma {:induction false} SplitHead(head: string, rest: string)
    requires ':' !in head
    ensures Split(head + [':'] + rest) == [head] + Split(rest)
  {
    var s := head + [':'] + rest;
    if head == [] {
      assert s[1..] == rest;
    } else {
      assert s[1..] == head[1..] + [':'] + rest;
      assert s[0] == head[0] && head[0] in head && [head[0]] + head[1..] == head;
      SplitHead(head[1..], rest);
    }
  }

  lemma {:induction false} SplitWord(word: string)
    requires ':' !in word
    ensures Split(word) == [word]
  {
    if word != [] {
      assert word[0] in word && [word[0]] + word[1..] == word;
      SplitWord(word[1..]);
    }
  }

  lemma {:induction false} TrimEndKeepsHead(head: string, rest: string)
    requires head != [] && !IsSpace(head[|head| - 1])
    ensures TrimEnd(head + rest) == head + TrimEnd(rest)
  {
    var s := head + rest;
    if rest == [] {
      assert s == head;
    } else if IsSpace(rest[|rest| - 1]) {
      assert s[..|s| - 1] == head + rest[..|rest| - 1];
      TrimEndKeepsHead(head, rest[..|rest| - 1]);
    }
  }

  /** The client sees the kind the daemon sent, and the status field up to the next colon. */
  lemma LineSplits(r: Response)
    ensures Split(Trim(Serialize(r))) ==
      [if r.Success? then "OK" else "ERROR"] + Split(TrimEnd(r.msg))
  {
    var kind := if r.Success? then "OK" else "ERROR";
    var line := Serialize(r);
    assert "OK:" == "OK" + [':'] && "ERROR:" == "ERROR" + [':'];
    assert TrimStart(line) == line;
    assert line == kind + [':'] + r.msg;
    TrimEndKeepsHead(kind + [':'], r.msg);
    SplitHead(kind, TrimEnd(r.msg));
  }

  /** A status without colons or blanks is what the client compares. */
  lemma StatusIsRead(r: Response)
    requires ':' !in r.msg && (r.msg != [] ==> !IsSpace(r.msg[|r.msg| - 1]))
    ensures ClassifyUnpairResponse(Serialize(r)) ==
      match r
      case Success(msg) =>
        if msg == "CLEARED" then Cleared
        else if msg == "CLEARED_UNCONFIRMED" then ClearedUnconfirmed
        else if msg == "CLEARED_LOCAL_ONLY" then ClearedLocalOnly
        else if msg == "CLEARED_SLOT_UNPAIRED" then ClearedSlotUnpaired
        else Failed
      case Failure(msg) => if msg == "SLOT_CLEAR_REFUSED" then Refused else Failed
  {
    LineSplits(r);
    SplitWord(r.msg);
  }

  /** No error the daemon reports, whatever its text, is read as any kind of success. */
  lemma FailureIsNeverCleared(msg: string)
    ensures ClassifyUnpairResponse(Serialize(Failure(msg))) in {Refused, Failed}
  {
    LineSplits(Failure(msg));
  }

  /** What a successful answer can say. */
  predicate IsStatus(msg: string) {
    msg == "CLEARED" || msg == "CLEARED_UNCONFIRMED" || msg == "CLEARED_LOCAL_ONLY" || msg == "CLEARED_SLOT_UNPAIRED"
  }

  lemma StatusIsPlain(msg: string)
    requires IsStatus(msg)
    ensures ':' !in msg && msg != [] && !IsSpace(msg[|msg| - 1])
  {
  }

  lemma ClearAnswers(h: Host, w: World, target: Option<byte>)
    ensures var r := Clear(h, w, target).response; r.Success? ==> IsStatus(r.msg)
  {
    hide DeviceClear, ParseSlotStatus;
  }

  /** The client reports a full clear exactly when the daemon answered CLEARED. */
  lemma ClearedIsRead(h: Host, w: World, target: Option<byte>)
    ensures var o := Clear(h, w, target);
      ClassifyUnpairResponse(Serialize(o.response)) == Cleared <==> o.response == Success("CLEARED")
  {
    var r := Clear(h, w, target).response;
    ClearAnswers(h, w, target);
    hide Clear;
    if r.Success? {
      StatusIsPlain(r.msg);
      hide IsStatus;
      StatusIsRead(r);
    } else {
      FailureIsNeverCleared(r.msg);
    }
  }

  // ---- When a reported clear is one ----

  lemma OtherOutcomeIff(h: Host, w: World, slot: byte)
    ensures var o := OtherOutcome(h, w, slot);
      o.host == h && o.response == if Worker.GrantArrives(Stretch(w, slot)) then Success("CLEARED") else Failure("SLOT_CLEAR_FAILED:")
  {
    Worker.GatedIffGrant(Stretch(w, slot));
    hide Worker.Gated, Worker.GrantArrives, Stretch;
  }

  /** Clearing the other slot reports CLEARED exactly when a success arrives that the worker takes, whatever the device did. */
  lemma OtherClearedIff(h: Host, w: World, target: Option<byte>)
    requires AsksOther(h, w, target)
    ensures var o := Clear(h, w, target);
      && o.host == h && o.device == DeviceClear(w.device, target, w.mood).0
      && o.response == if Worker.GrantArrives(Stretch(w, target.value)) then Success("CLEARED") else Failure("SLOT_CLEAR_FAILED:")
  {
    PathTaken(h, w, target);
    OtherOutcomeIff(h, w, target.value);
    hide Clear, DeviceClear, Worker.Gated, Worker.GrantArrives, Stretch;
  }

  /** What a device sends that leaves the far slot as it is: it turns the command down, or nobody touches it in time. */
  predicate SaysNo(answer: Bytes, report: Option<Bytes>) {
    || (|answer| == 2 && answer[0] == SLOT_CLEAR && answer[1] != OK_CODE && report.None?)
    || (answer == [Link.WAIT_FP] && report == Some([Link.TIMEOUT]))
  }

  /** The link makes no success up: whatever arrives while the device says no, the worker finds no success in it. */
  ghost predicate MakesUpNoSuccess(carrier: Carrier) {
    forall answer, report :: SaysNo(answer, report) ==> !Worker.GrantArrives(carrier(answer, report) + [Worker.Expired])
  }

  /** Over this link, CLEARED for the far slot means that the slot is empty, whatever the device and its mood. */
  ghost predicate ClearedMeansErased(slot: byte, carrier: Carrier) {
    forall h: Host, w: World :: w.Valid() && w.carrier == carrier && AsksOther(h, w, Some(slot)) ==>
      var o := Clear(h, w, Some(slot));
      o.response == Success("CLEARED") ==> o.device.At(slot).None?
  }

  const TAKEN: Device := Device(Some(7), Some(8), 1)
  const UNTOUCHED: Mood := Mood(None, false)
  const OWNER: Host := Host(Some(7), true, true, true)

  /** A device that leaves the slot taken says no. */
  lemma TakenSaysNo(d: Device, m: Mood, slot: byte)
    requires d.Valid() && m.Valid() && (slot == 1 || slot == 2)
    ensures var (after, answer) := DeviceClear(d, Some(slot), m);
      after.At(slot).Some? ==> SaysNo(answer, GateReport(answer, m))
  {
  }

  lemma NoSuccessMadeUp(h: Host, w: World, target: Option<byte>)
    requires w.device.Valid() && w.mood.Valid() && AsksOther(h, w, target) && MakesUpNoSuccess(w.carrier)
    ensures var o := Clear(h, w, target); o.response == Success("CLEARED") ==> o.device.At(target.value).None?
  {
    OtherClearedIff(h, w, target);
    TakenSaysNo(w.device, w.mood, target.value);
    hide Clear, AsksOther, Worker.GrantArrives, SaysNo, DeviceClear;
  }

  /** Every no comes from some device that keeps the slot. */
  lemma NoIsPossible(answer: Bytes, report: Option<Bytes>, slot: byte) returns (d: Device, m: Mood)
    requires SaysNo(answer, report) && (slot == 1 || slot == 2)
    ensures d.Valid() && m.Valid() && DeviceClear(d, Some(slot), m) == (d, answer) && GateReport(answer, m) == report && d.At(slot).Some?
  {
    d, m := TAKEN.(active := 3 - slot), UNTOUCHED;
    if answer != [Link.WAIT_FP] {
      assert answer == [SLOT_CLEAR, answer[1]];
      if answer[1] == NOT_PAIRED {
        d := d.Erase(3 - slot);
      } else {
        m := Mood(Some(answer[1]), false);
      }
    }
  }

  /** CLEARED for the far slot can be relied upon if and only if the link makes up no success. */
  lemma OtherClearedMeansErased(slot: byte, carrier: Carrier)
    requires slot == 1 || slot == 2
    ensures ClearedMeansErased(slot, carrier) <==> MakesUpNoSuccess(carrier)
  {
    if MakesUpNoSuccess(carrier) {
      forall h: Host, w: World | w.Valid() && w.carrier == carrier && AsksOther(h, w, Some(slot))
        ensures var o := Clear(h, w, Some(slot)); o.response == Success("CLEARED") ==> o.device.At(slot).None?
      {
        NoSuccessMadeUp(h, w, Some(slot));
      }
    }
    if ClearedMeansErased(slot, carrier) {
      forall answer, report | SaysNo(answer, report) ensures !Worker.GrantArrives(carrier(answer, report) + [Worker.Expired]) {
        var d, m := NoIsPossible(answer, report, slot);
        var w := World(Some([SLOT_STATUS, OK_CODE, 3, 3 - slot]), d, m, Intact, carrier);
        assert AsksOther(OWNER, w, Some(slot));
        OtherClearedIff(OWNER, w, Some(slot));
        hide Clear, Worker.GrantArrives;
      }
    }
  }

  // ---- Two links ----

  /** Passes on what the device sends, and nothing else. */
  function Honest(answer: Bytes, report: Option<Bytes>): seq<Worker.Choice> {
    Worker.Notice(answer) + match report case Some(frame) => Worker.Notice(frame) case None => []
  }

  /** The same, behind a late success of an earlier command. */
  function Strayed(answer: Bytes, report: Option<Bytes>): seq<Worker.Choice> {
    Worker.Notice([OK_CODE]) + Honest(answer, report)
  }

  /** An honest report settles the gate that the honest answer opened. */
  lemma HonestGate(report: Bytes)
    requires report == [OK_CODE] || report == [Link.TIMEOUT]
    ensures Succeeded(Worker.Gated(Honest([Link.WAIT_FP], Some(report)) + [Worker.Expired])) <==> report == [OK_CODE]
  {
    var c := Honest([Link.WAIT_FP], Some(report)) + [Worker.Expired];
    var frame := Link.Frame(report, false);
    assert c == Worker.Notice([Link.WAIT_FP]) + (Worker.Notice(report) + [Worker.Expired]);
    Worker.FirstFrameAnswers([Link.WAIT_FP], Worker.Notice(report) + [Worker.Expired]);
    Worker.OneFrame(frame);
    assert c[2..3] == [Worker.Notified(frame)] && c[2] == Worker.Notified(frame) && c[3] == Worker.Resolved;
    hide Worker.Frames, Link.Verdict, Worker.Answer;
    assert Worker.GateWait(c, 2, 2) == Worker.GateWait(c, 2, 3);
    assert Worker.GateWait(c, 2, 3) ==
      Worker.Ended(if report == [OK_CODE] then Ok(Worker.Reply(OK_CODE, [OK_CODE])) else Err(Worker.GateFailed(Some(report[0]))), 4);
  }

  /** Over an honest link CLEARED can be relied upon. */
  lemma HonestMakesUpNothing()
    ensures MakesUpNoSuccess(Honest)
  {
    forall answer, report | SaysNo(answer, report) ensures !Worker.GrantArrives(Honest(answer, report) + [Worker.Expired]) {
      var c := Honest(answer, report) + [Worker.Expired];
      Worker.GatedIffGrant(c);
      if report.Some? {
        HonestGate([Link.TIMEOUT]);
      } else {
        assert c == Worker.Notice(answer) + [Worker.Expired];
        Worker.FirstFrameAnswers(answer, [Worker.Expired]);
        hide Worker.Answer;
      }
      hide Worker.GrantArrives;
    }
  }

  /** Such a request exists: slot 1 is ours, the device presents slot 2, and a finger confirms "the other host". */
  lemma NamingOwnSlotLeavesGhost()
    ensures var w := World(Some([SLOT_STATUS, 0, 3, 2]), Device(Some(7), Some(8), 2), Mood(None, true), Intact, Honest);
      w.Valid() && Clear(OWNER, w, Some(1)) == Outcome(OWNER, Device(None, Some(8), 2), Success("CLEARED"))
  {
    var w := World(Some([SLOT_STATUS, 0, 3, 2]), Device(Some(7), Some(8), 2), Mood(None, true), Intact, Honest);
    HonestGate([OK_CODE]);
    assert Stretch(w, 1) == Honest([Link.WAIT_FP], Some([OK_CODE])) + [Worker.Expired];
    hide Worker.Gated, Stretch, Honest;
    assert ParseSlotStatus(w.status.value) == Supported(3, 2);
  }

  /** A stray 0x00 ahead of the answer: reported as cleared, and the other host's slot is still there. */
  lemma StrayFrameReportsClear()
    ensures var w := World(Some([SLOT_STATUS, 0, 3, 1]), TAKEN, UNTOUCHED, Intact, Strayed);
      w.Valid() && Clear(OWNER, w, Some(2)) == Outcome(OWNER, TAKEN, Success("CLEARED"))
  {
    var w := World(Some([SLOT_STATUS, 0, 3, 1]), TAKEN, UNTOUCHED, Intact, Strayed);
    var rest := Honest([Link.WAIT_FP], Some([Link.TIMEOUT])) + [Worker.Expired];
    assert Stretch(w, 2) == Worker.Notice([OK_CODE]) + rest;
    Worker.FirstFrameAnswers([OK_CODE], rest);
    assert Succeeded(Worker.Gated(Stretch(w, 2))) by {
      hide Worker.Answer, Stretch;
    }
    hide Worker.Gated, Stretch;
    assert ParseSlotStatus(w.status.value) == Supported(3, 1);
  }

  /**
   * CLEARED, about the slot in use: the device erased it and said so, over a link that held. About the other slot: it is
   * gone, unless the link made the success up. There is no third way.
   */
  lemma ClearedMeansConfirmed(h: Host, w: World, target: Option<byte>)
    requires w.Valid() && Clear(h, w, target).response == Success("CLEARED")
    ensures AsksOwn(h, w, target) || AsksOther(h, w, target)
    ensures var o := Clear(h, w, target);
      && (AsksOwn(h, w, target) ==> w.delivery.Intact? && o.device == w.device.Erase(w.device.active) && (target.Some? ==> target.value == w.device.active))
      && (AsksOther(h, w, target) && MakesUpNoSuccess(w.carrier) ==> o.device.At(target.value).None?)
  {
    StatusesDiffer();
    if h.connected {
      PathTaken(h, w, target);
    }
    if AsksOther(h, w, target) && MakesUpNoSuccess(w.carrier) {
      NoSuccessMadeUp(h, w, target);
    }
    hide OtherOutcome, MakesUpNoSuccess;
  }
}
