/** The way of an enrollment notification from the device to the client's poll loop (`ble.rs`, `socket.rs`, `fingerprint.rs`). */
module FpStatus {
  import opened Wire
  import Link
  import Enroll
  import SlotClear

  // ---- Decimal bytes ----

  /** `{}` of a `u8`. */
  function Decimal(n: byte): string {
    var last: string := ['0' + (n % 10) as char];
    if n < 10 then last else Decimal(n / 10) + last
  }

  predicate AllDigits(s: string) {
    forall i :: 0 <= i < |s| ==> '0' <= s[i] <= '9'
  }

  function Value(digits: string): nat
    requires AllDigits(digits)
  {
    if digits == [] then 0
    else
      var n := |digits| - 1;
      10 * Value(digits[..n]) + (digits[n] - '0') as nat
  }

  /** `str::parse::<u8>`: a plus sign may lead, zeros too. */
  function ParseU8(s: string): Option<byte> {
    var digits := if s != [] && s[0] == '+' then s[1..] else s;
    if digits == [] || !AllDigits(digits) || Value(digits) > 255 then None else Some(Value(digits))
  }

  lemma {:induction false} DecimalValue(n: byte)
    ensures var s := Decimal(n); s != [] && AllDigits(s) && Value(s) == n
  {
    var s := Decimal(n);
    if n >= 10 {
      DecimalValue(n / 10);
      assert s[..|s| - 1] == Decimal(n / 10);
    }
    assert s[|s| - 1] == '0' + (n % 10) as char;
  }

  lemma DecimalParses(n: byte)
    ensures var s := Decimal(n); ParseU8(s) == Some(n) && ':' !in s && s != [] && !IsSpace(s[|s| - 1]) && s != "IDLE"
  {
    DecimalValue(n);
    var s := Decimal(n);
    assert "IDLE"[0] == 'I' && AllDigits([s[0]] + s[1..]);
  }

  // ---- The answer to FP:STATUS, and the client's reading of it ----

  /** The last enrollment notification, as the daemon keeps it. */
  datatype News = News(status: byte, current: byte, total: byte)

  function Msg(news: Option<News>): string {
    match news
    case None => "IDLE"
    case Some(n) => Decimal(n.status) + [':'] + (Decimal(n.current) + [':'] + Decimal(n.total))
  }

  /** `handle_fp_status`, as a line. */
  function StatusLine(news: Option<News>): string {
    SlotClear.Serialize(SlotClear.Success(Msg(news)))
  }

  function StatusOf(n: News): Enroll.Status {
    match n.status
    case 0 => Enroll.Waiting(n.current, n.total)
    case 1 => Enroll.Captured(n.current, n.total)
    case 2 => Enroll.Busy
    case 3 => Enroll.Lift
    case 6 => Enroll.Overlapping
    case 4 => Enroll.Done
    case _ => Enroll.Rejected
  }

  function Field(parts: seq<string>, i: nat, default: byte): byte {
    if i < |parts| && ParseU8(parts[i]).Some? then ParseU8(parts[i]).value else default
  }

  /** `parse_fp_status`: a missing or unreadable field after the first is 0 of 6. */
  function ParseFpStatus(line: string): Option<Enroll.Status> {
    var parts := SlotClear.Split(Trim(line));
    if parts[0] != "OK" || |parts| < 2 then None
    else if parts[1] == "IDLE" then Some(Enroll.Idle)
    else match ParseU8(parts[1])
      case None => None
      case Some(status) => Some(StatusOf(News(status, Field(parts, 2, 0), Field(parts, 3, 6))))
  }

  lemma MsgSplits(n: News)
    ensures TrimEnd(Msg(Some(n))) == Msg(Some(n))
    ensures SlotClear.Split(Msg(Some(n))) == [Decimal(n.status), Decimal(n.current), Decimal(n.total)]
  {
    DecimalParses(n.status);
    DecimalParses(n.current);
    DecimalParses(n.total);
    var msg := Msg(Some(n));
    assert msg[|msg| - 1] == Decimal(n.total)[|Decimal(n.total)| - 1];
    SlotClear.SplitHead(Decimal(n.status), Decimal(n.current) + [':'] + Decimal(n.total));
    SlotClear.SplitHead(Decimal(n.current), Decimal(n.total));
    SlotClear.SplitWord(Decimal(n.total));
  }

  /** What the daemon keeps is what the client reads: all three bytes of every notification. */
  lemma NewsReadsBack(n: News)
    ensures ParseFpStatus(StatusLine(Some(n))) == Some(StatusOf(n))
  {
    hide SlotClear.Split, Decimal, ParseU8;
    SlotClear.LineSplits(SlotClear.Success(Msg(Some(n))));
    MsgSplits(n);
    DecimalParses(n.status);
    DecimalParses(n.current);
    DecimalParses(n.total);
    assert SlotClear.Split(Trim(StatusLine(Some(n)))) == ["OK", Decimal(n.status), Decimal(n.current), Decimal(n.total)];
    hide Msg, SlotClear.Serialize, Trim;
  }

  /** Without a notification the answer reads as idle. */
  lemma SilenceReadsIdle()
    ensures ParseFpStatus(StatusLine(None)) == Some(Enroll.Idle)
  {
    SlotClear.LineSplits(SlotClear.Success("IDLE"));
    SlotClear.SplitWord("IDLE");
    hide SlotClear.Split, Decimal, ParseU8;
    assert SlotClear.Split(Trim(StatusLine(None))) == ["OK", "IDLE"];
    hide Trim, StatusLine;
  }

  /** Any answer but OK is no reading: the poll loop takes it for a hiccup. */
  lemma ErrorIsNoReading(msg: string)
    ensures ParseFpStatus(SlotClear.Serialize(SlotClear.Failure(msg))) == None
  {
    SlotClear.LineSplits(SlotClear.Failure(msg));
  }

  /** The routed notification, kept. */
  function Keep(effect: Link.Effect): Option<News> {
    if effect.EnrollNews? then Some(News(effect.status, effect.current, effect.total)) else None
  }

  /**
   * What the dialog reports for a device's `[0x11, status, current, total]`, through the daemon and the client's poll: the
   * frame to press next, from 1 up and never above the total; and an unknown status is a failure.
   */
  lemma NotificationIsReported(l: Link.Link, genuine: bool, status: byte, current: byte, total: byte)
    ensures var news := Keep(Link.Route(l, Link.Frame([0x11, status, current, total], genuine)).effect);
      var read := ParseFpStatus(StatusLine(news));
      var last := if total == 0 then 1 else total as nat;
      && news.Some? && read.Some?
      && Enroll.EventOf(read.value) ==
         (if status <= 1 then Enroll.Step(if current + 1 < last then current + 1 else last, current, total)
          else if status == 2 then Enroll.Processing
          else if status == 3 then Enroll.LiftFinger
          else if status == 6 then Enroll.Overlap
          else if status == 4 then Enroll.Complete
          else Enroll.Failed(Enroll.DeviceFailed))
  {
    NewsReadsBack(News(status, current, total));
    hide ParseFpStatus, StatusLine;
  }
}
