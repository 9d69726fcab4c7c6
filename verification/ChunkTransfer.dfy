/**
 * Keystore entries cross the link in chunks of at most 59 bytes with a one-byte offset
 * (`ble.rs`, `socket.rs`, `ssh_agent.rs`).
 */
module ChunkTransfer {
  import opened Wire
  import opened KeyEntries

  const MAX_CHUNK := 59
  const MAX_PAYLOAD_SIZE := 62
  const APPEND: byte := 0xFF
  const RSP_OK: byte := 0x00
  const RSP_FP_GATE_APPROVED: byte := 0x10
  const RSP_ERR_LOW_BATTERY: byte := 0xF4

  // ---- Writing: KEY_WRITE, one packet per chunk ----

  datatype Packet = Packet(category: byte, index: byte, offset: byte, chunk: Bytes) {
    function Payload(): Bytes {
      [category, index, offset] + chunk
    }
  }

  /** The packets for the bytes of `data` from `from` on; the offset byte is `from as u8`. */
  function Packets(category: byte, data: Bytes, from: nat): (ps: seq<Packet>)
    requires from <= |data|
    decreases |data| - from
  {
    if from == |data| then []
    else
      var end := if from + MAX_CHUNK < |data| then from + MAX_CHUNK else |data|;
      [Packet(category, APPEND, from % 256, data[from..end])] + Packets(category, data, end)
  }

  /** The device's staging area: each chunk is copied to its offset, over what was there. */
  function Staged(area: Bytes, ps: seq<Packet>): Bytes
    decreases |ps|
  {
    if ps == [] then area else Staged(Place(area, ps[0].offset, ps[0].chunk), ps[1..])
  }

  function Place(area: Bytes, offset: nat, chunk: Bytes): (r: Bytes)
    ensures |r| == |area| || |r| == offset + |chunk|
  {
    if offset > |area| then area
    else area[..offset] + chunk + (if offset + |chunk| < |area| then area[offset + |chunk|..] else [])
  }

  /** No packet exceeds what one BLE write carries, whatever the payload. */
  lemma {:induction false} PacketsFitTheLink(category: byte, data: Bytes, from: nat)
    requires from <= |data|
    ensures forall p <- Packets(category, data, from) :: 3 < |p.Payload()| <= MAX_PAYLOAD_SIZE
    decreases |data| - from
  {
    if from < |data| {
      PacketsFitTheLink(category, data, if from + MAX_CHUNK < |data| then from + MAX_CHUNK else |data|);
    }
  }

  function ChunkEnd(data: Bytes, from: nat): (end: nat)
    requires from < |data|
    ensures from < end <= |data| && end <= from + MAX_CHUNK
  {
    if from + MAX_CHUNK < |data| then from + MAX_CHUNK else |data|
  }

  lemma StagePacket(category: byte, data: Bytes, from: nat, area: Bytes)
    requires from < |data|
    ensures
      var end := ChunkEnd(data, from);
      Staged(area, Packets(category, data, from))
      == Staged(Place(area, from % 256, data[from..end]), Packets(category, data, end))
  {
    var end := ChunkEnd(data, from);
    var ps := Packets(category, data, from);
    assert ps == [Packet(category, APPEND, from % 256, data[from..end])] + Packets(category, data, end);
    assert ps[1..] == Packets(category, data, end);
  }

  const STAGE_LIMIT := 295  // five full chunks; the sixth offset no longer fits one byte

  lemma PlaceBehind(data: Bytes, from: nat, end: nat)
    requires from <= end <= |data|
    ensures Place(data[..from], from, data[from..end]) == data[..end]
  {
  }

  /** Up to the fifth packet every chunk lands right behind the bytes staged before it. */
  lemma {:induction false} StagingAppends(category: byte, data: Bytes, from: nat, to: nat, left: nat)
    requires from <= to <= |data| && from == STAGE_LIMIT - 59 * left
    requires to == if |data| < STAGE_LIMIT then |data| else STAGE_LIMIT
    ensures Staged(data[..from], Packets(category, data, from)) == Staged(data[..to], Packets(category, data, to))
    decreases left
  {
    if from < to {
      var end := ChunkEnd(data, from);
      assert end <= to && (end < to ==> end == STAGE_LIMIT - 59 * (left - 1));
      SmallMod(from);
      hide *;
      StagePacket(category, data, from, data[..from]);
      PlaceBehind(data, from, end);
      if end < to {
        StagingAppends(category, data, end, to, left - 1);
      }
    }
  }

  /** With a one-byte offset no chunk reaches beyond byte 314. */
  lemma {:induction false} StagingStaysLow(category: byte, data: Bytes, from: nat, area: Bytes)
    requires from <= |data| && |area| <= 255 + MAX_CHUNK
    ensures |Staged(area, Packets(category, data, from))| <= 255 + MAX_CHUNK
    decreases |data| - from
  {
    hide Packets, Staged, Place;
    if from < |data| {
      var end := ChunkEnd(data, from);
      var offset: byte := from % 256;
      StagePacket(category, data, from, area);
      StagingStaysLow(category, data, end, Place(area, offset, data[from..end]));
    } else {
      NothingLeft(category, data, area);
    }
  }

  /** From the first wrapped offset on, the staging area no longer grows to the payload's length. */
  lemma StagingWraps(category: byte, data: Bytes, area: Bytes)
    requires STAGE_LIMIT < |data| && |area| == STAGE_LIMIT
    ensures |Staged(area, Packets(category, data, STAGE_LIMIT))| < |data|
  {
    var end := ChunkEnd(data, STAGE_LIMIT);
    var chunk := data[STAGE_LIMIT..end];
    hide Packets, Staged, Place;
    StagePacket(category, data, STAGE_LIMIT, area);
    assert STAGE_LIMIT % 256 == 39;
    var next := Place(area, 39, chunk);
    assert |next| <= STAGE_LIMIT;
    if end == |data| {
      NothingLeft(category, data, next);
    } else {
      StagingStaysLow(category, data, end, next);
    }
  }

  lemma NothingLeft(category: byte, data: Bytes, area: Bytes)
    ensures Staged(area, Packets(category, data, |data|)) == area
  {
  }

  /**
   * The chunk loop stages exactly the payload if and only if no offset byte wraps.
   */
  lemma StagesExactly(category: byte, data: Bytes)
    ensures Staged([], Packets(category, data, 0)) == data <==> |data| <= STAGE_LIMIT
  {
    var to := if |data| < STAGE_LIMIT then |data| else STAGE_LIMIT;
    assert data[..0] == [];
    StagingAppends(category, data, 0, to, 5);
    if |data| <= STAGE_LIMIT {
      assert data[..to] == data;
      NothingLeft(category, data, data);
    } else {
      StagingWraps(category, data, data[..to]);
    }
  }

  /** Which payloads the import commands take: a whole SSH entry, an OTP entry or an API entry with a secret. */
  predicate ImportTakes(c: Category, data: Bytes) {
    match c
    case Ssh => |data| == 112
    case Otp => NAME_LEN_OTP + SERVICE_LEN_OTP < |data| <= NAME_LEN_OTP + SERVICE_LEN_OTP + SECRET_LEN_OTP
    case Api => NAME_LEN_API < |data| <= NAME_LEN_API + VALUE_LEN_API
  }

  function CategoryByte(c: Category): byte {
    match c
    case Ssh => 0
    case Otp => 1
    case Api => 2
  }

  /** Every payload an import command takes is staged exactly, and no offset byte wraps on the way. */
  lemma AcceptedImportsStage(c: Category, data: Bytes)
    requires ImportTakes(c, data)
    ensures Staged([], Packets(CategoryByte(c), data, 0)) == data
    ensures forall k :: 0 <= k < |Packets(CategoryByte(c), data, 0)| ==> Packets(CategoryByte(c), data, 0)[k].offset == MAX_CHUNK * k
  {
    StagesExactly(CategoryByte(c), data);
    OffsetsNeverWrap(CategoryByte(c), data, 0, 0);
  }

  lemma {:induction false} OffsetsNeverWrap(category: byte, data: Bytes, from: nat, index: nat)
    requires from <= |data| <= 160 && (from < |data| ==> from == 59 * index)
    ensures forall k :: 0 <= k < |Packets(category, data, from)| ==> Packets(category, data, from)[k].offset == 59 * (index + k)
    decreases |data| - from
  {
    if from < |data| {
      OffsetsNeverWrap(category, data, ChunkEnd(data, from), index + 1);
    }
  }

  /** How many bytes packet `k` carries: 59, but for the last one. */
  function Share(data: Bytes, k: nat): (n: nat)
    requires 59 * k < |data|
  {
    if |data| - 59 * k < 59 then |data| - 59 * k else 59
  }

  /** Packet `k` on the wire: category, 0xFF for "append", the low byte of its offset, and its share of the payload. */
  lemma {:induction false} PacketsMean(category: byte, data: Bytes, from: nat, first: nat, k: nat)
    requires from <= |data| && (from < |data| ==> from == 59 * first)
    ensures var ps := Packets(category, data, from);
      && (k < |ps| <==> from < |data| && 59 * (first + k) < |data|)
      && (k < |ps| ==>
          var at := 59 * (first + k);
          ps[k].Payload() == [category, 0xFF, at % 256] + data[at..at + Share(data, first + k)])
    decreases |data| - from
  {
    if from < |data| {
      var end := ChunkEnd(data, from);
      PacketsNext(category, data, from, end);
      if k > 0 {
        PacketsMean(category, data, end, first + 1, k - 1);
      }
    }
  }

  datatype Reply = Status(status: byte) | NoReply

  datatype ImportOutcome =
    | CountFailed
    | KeystoreFull
    | LowBattery(committing: bool)
    | WriteFailed(offset: nat)
    | WriteLost
    | CommitFailed
    | Imported(slot: byte)

  predicate Accepted(r: Reply) {
    r == Status(RSP_OK)
  }

  /** How many packets go out: all of them, or up to and including the first one not accepted. */
  function SentCount(ps: seq<Packet>, writes: nat -> Reply, from: nat): (n: nat)
    requires from <= |ps|
    ensures from <= n <= |ps|
    decreases |ps| - from
  {
    if from == |ps| then from
    else if Accepted(writes(from)) then SentCount(ps, writes, from + 1)
    else from + 1
  }

  /** What the import reports when packet `k` was the last to go out. */
  function RefusedWith(reply: Reply, k: nat): ImportOutcome {
    match reply
    case Status(status) => if status == 0xF4 then LowBattery(false) else WriteFailed(59 * k)
    case NoReply => WriteLost
  }

  function CommittedWith(reply: Reply, slot: byte): ImportOutcome {
    match reply
    case Status(status) => if status == 0x00 || status == 0x10 then Imported(slot) else if status == 0xF4 then LowBattery(true) else CommitFailed
    case NoReply => CommitFailed
  }

  lemma PacketsNext(category: byte, data: Bytes, from: nat, end: nat)
    requires from < |data| && end == if from + MAX_CHUNK < |data| then from + MAX_CHUNK else |data|
    ensures Packets(category, data, from) == [Packet(category, APPEND, from % 256, data[from..end])] + Packets(category, data, end)
  {
  }

  /** After the packets `sent` the count goes on, or stops, with the next answer. */
  lemma SentNext(ps: seq<Packet>, writes: nat -> Reply, sent: seq<Packet>)
    requires |sent| < |ps|
    ensures SentCount(ps, writes, |sent|) == if Accepted(writes(|sent|)) then SentCount(ps, writes, |sent| + 1) else |sent| + 1
  {
  }

  /**
   * `handle_key_import_inner`: ask the count, stage every chunk, commit. The device's answers are
   * arbitrary: `count` to KEY_COUNT (`None` when it failed), `writes(k)` to the k-th KEY_WRITE.
   */
  method ImportKey(category: byte, data: Bytes, maxCount: byte, count: Option<byte>,
                   writes: nat -> Reply, commit: Reply)
    returns (sent: seq<Packet>, committed: bool, outcome: ImportOutcome)
    ensures
      var ps := Packets(category, data, 0);
      var admitted := count.Some? && count.value < maxCount;
      && sent == (if admitted then ps[..SentCount(ps, writes, 0)] else [])
      && (committed <==> admitted && forall k :: 0 <= k < |ps| ==> Accepted(writes(k)))
      && (count.None? ==> outcome == CountFailed)
      && (count.Some? && count.value >= maxCount ==> outcome == KeystoreFull)
      && (admitted && !committed ==> sent != [] && outcome == RefusedWith(writes(|sent| - 1), |sent| - 1))
      && (committed ==> outcome == CommittedWith(commit, count.value))
  {
    sent, committed := [], false;
    if count.None? {
      return [], false, CountFailed;
    }
    if count.value >= maxCount {
      return [], false, KeystoreFull;
    }
    ghost var ps := Packets(category, data, 0);
    var offset: nat := 0;
    while offset < |data|
      invariant 0 <= offset <= |data|
      invariant ps == sent + Packets(category, data, offset) && (offset < |data| ==> offset == 59 * |sent|)
      invariant forall k :: 0 <= k < |sent| ==> Accepted(writes(k))
      invariant SentCount(ps, writes, |sent|) == SentCount(ps, writes, 0)
      decreases |data| - offset
    {
      var end := if offset + MAX_CHUNK < |data| then offset + MAX_CHUNK else |data|;
      var reply := writes(|sent|);
      var packet := Packet(category, APPEND, offset % 256, data[offset..end]);
      PacketsNext(category, data, offset, end);
      SentNext(ps, writes, sent);
      hide *;
      Associate(sent, [packet], Packets(category, data, end));
      sent := sent + [packet];
      if !Accepted(reply) {
        assert ps[..|sent|] == sent;
        return sent, false,
          if reply == Status(RSP_ERR_LOW_BATTERY) then LowBattery(false)
          else if reply.Status? then WriteFailed(offset) else WriteLost;
      }
      offset := end;
    }
    assert ps[..|ps|] == ps == sent;
    outcome :=
      if Accepted(commit) || commit == Status(RSP_FP_GATE_APPROVED) then Imported(count.value)
      else if commit == Status(RSP_ERR_LOW_BATTERY) then LowBattery(true)
      else CommitFailed;
    return sent, true, outcome;
  }

  /** Whatever the device answers, a commit is only ever sent over a staging area that is complete. */
  lemma CommitsOnlyWholeKeys(category: byte, data: Bytes, maxCount: byte, count: Option<byte>, writes: nat -> Reply)
    requires |data| <= STAGE_LIMIT
    requires count.Some? && count.value < maxCount
    requires forall k :: 0 <= k < |Packets(category, data, 0)| ==> Accepted(writes(k))
    ensures
      var ps := Packets(category, data, 0);
      SentCount(ps, writes, 0) == |ps| && Staged([], ps[..SentCount(ps, writes, 0)]) == data
  {
    var ps := Packets(category, data, 0);
    AllSent(ps, writes, 0);
    assert ps[..|ps|] == ps;
    StagesExactly(category, data);
  }

  lemma {:induction false} AllSent(ps: seq<Packet>, writes: nat -> Reply, from: nat)
    requires from <= |ps| && forall k :: 0 <= k < |ps| ==> Accepted(writes(k))
    ensures SentCount(ps, writes, from) == |ps|
    decreases |ps| - from
  {
    if from < |ps| {
      AllSent(ps, writes, from + 1);
    }
  }

  // ---- Reading: KEY_READ and KEY_RESULT, one request per chunk ----

  /** `[status][total][offset echo][data]`, or an answer the loop gives up on. */
  datatype Chunk = Chunk(total: byte, data: Bytes) | Refused

  datatype Reading = Partial(got: Bytes) | Complete(data: Bytes) | Failed

  /** What the device answers to the k-th request, which asks for `offset`. */
  type Device = (nat, byte) -> Chunk

  function Absorb(got: Bytes, c: Chunk): Reading {
    if c.Refused? then Failed
    else
      var all := got + c.data;
      if |all| >= c.total then Complete(all[..c.total]) else Partial(all)
  }

  /** The loop's state after at most `n` requests. While it runs it holds fewer bytes than a total can name: the offset never wraps. */
  function AfterRequests(device: Device, n: nat): (r: Reading)
    ensures r.Partial? ==> |r.got| <= 254
  {
    if n == 0 then Partial([])
    else
      match AfterRequests(device, n - 1)
      case Partial(got) => Absorb(got, device(n - 1, |got| % 256))
      case ended => ended
  }

  /**
   * The chunk loop, observed for `budget` requests. The code itself sets no bound for KEY_READ and
   * stops after four requests for KEY_RESULT.
   */
  method ReadChunks(device: Device, budget: nat) returns (r: Reading)
    ensures r == AfterRequests(device, budget)
  {
    var got: Bytes := [];
    var offset: byte := 0;
    for k := 0 to budget
      invariant AfterRequests(device, k) == Partial(got) && offset == |got| % 256
    {
      match device(k, offset)
      case Refused =>
        EndedForGood(device, k + 1, budget);
        return Failed;
      case Chunk(total, data) =>
        got := got + data;
        if |got| >= total {
          EndedForGood(device, k + 1, budget);
          return Complete(got[..total]);
        }
        offset := |got| % 256;
    }
    return Partial(got);
  }

  lemma {:induction false} EndedForGood(device: Device, k: nat, n: nat)
    requires k <= n && !AfterRequests(device, k).Partial?
    ensures AfterRequests(device, n) == AfterRequests(device, k)
  {
    if k < n {
      EndedForGood(device, k, n - 1);
    }
  }

  /** A device that never answers with an empty chunk lets the loop end within 255 requests. */
  lemma {:induction false} NonEmptyChunksTerminate(device: Device, n: nat)
    requires forall k, o :: device(k, o).Chunk? ==> device(k, o).data != []
    ensures AfterRequests(device, n).Partial? ==> |AfterRequests(device, n).got| >= n
    ensures n >= 255 ==> !AfterRequests(device, n).Partial?
  {
    if n > 0 {
      NonEmptyChunksTerminate(device, n - 1);
    }
  }

  /** The loop has no bound of its own: against empty chunks of a non-empty entry it never ends. */
  lemma {:induction false} EmptyChunksNeverTerminate(device: Device, n: nat)
    requires forall k, o :: device(k, o).Chunk? && device(k, o).data == [] && device(k, o).total > 0
    ensures AfterRequests(device, n) == Partial([])
  {
    if n > 0 {
      EmptyChunksNeverTerminate(device, n - 1);
    }
  }

  /**
   * Why the loop ended: on a refusal, or on the chunk with which at least the announced total was there; what it yields has
   * exactly that length, and is what was held before and that chunk.
   */
  lemma {:induction false} EndsForAReason(device: Device, n: nat) returns (k: nat)
    requires !AfterRequests(device, n).Partial?
    ensures k < n && AfterRequests(device, k).Partial?
    ensures var got := AfterRequests(device, k).got;
      match device(k, |got|)
      case Refused => AfterRequests(device, n) == Failed
      case Chunk(total, data) =>
        |got + data| >= total && AfterRequests(device, n) == Complete((got + data)[..total])
  {
    if AfterRequests(device, n - 1).Partial? {
      k := n - 1;
      SmallMod(|AfterRequests(device, k).got|);
    } else {
      k := EndsForAReason(device, n - 1);
    }
  }

  predicate Running(device: Device, n: nat) {
    AfterRequests(device, n).Partial?
  }

  /** Bytes held after `n` requests of a loop still running. */
  function Held(device: Device, n: nat): (held: byte)
    requires Running(device, n)
    ensures held <= 254
  {
    |AfterRequests(device, n).got|
  }

  lemma {:induction false} HeldGrows(device: Device, m: nat, n: nat)
    requires m <= n && Running(device, n)
    ensures Running(device, m) && Held(device, m) <= Held(device, n)
  {
    if m < n {
      HeldGrows(device, m, n - 1);
    }
  }

  /** From request `m` on the device only ever answers with an empty chunk, of an entry longer than what is held. */
  ghost predicate StarvesFrom(device: Device, m: nat) {
    Running(device, m) && forall k :: k >= m ==> Starves(device(k, Held(device, m)), Held(device, m))
  }

  predicate Starves(c: Chunk, held: byte) {
    c.Chunk? && c.data == [] && c.total > held
  }

  lemma {:induction false} StarvingGoesOn(device: Device, m: nat, n: nat)
    requires StarvesFrom(device, m) && m <= n
    ensures Running(device, n) && AfterRequests(device, n) == AfterRequests(device, m)
  {
    if m < n {
      StarvingGoesOn(device, m, n - 1);
      var got, k := AfterRequests(device, m).got, n - 1;
      assert k >= m && Held(device, m) == |got|;
      assert Starves(device(k, |got|), |got|);
      SmallMod(|got|);
      assert AfterRequests(device, n) == Absorb(got, device(k, |got|));
      hide AfterRequests, StarvesFrom, Held;
      assert got + [] == got;
    }
  }

  /** The held bytes are bounded, so a loop that never ends stops growing. */
  lemma {:induction false} StopsGrowing(device: Device, m: nat) returns (from: nat)
    requires forall n :: Running(device, n)
    ensures forall k: nat :: k >= from ==> Held(device, k) == Held(device, from)
    decreases 254 - Held(device, m)
  {
    if later: nat :| later >= m && Held(device, later) > Held(device, m) {
      from := StopsGrowing(device, later);
    } else {
      from := m;
      forall k: nat | k >= from ensures Held(device, k) == Held(device, from) {
        HeldGrows(device, from, k);
      }
    }
  }

  lemma NoGrowthStarves(device: Device, from: nat, k: nat)
    requires Running(device, k) && Running(device, k + 1) && Running(device, from)
    requires Held(device, k) == Held(device, k + 1) == Held(device, from)
    ensures Starves(device(k, Held(device, from)), Held(device, from))
  {
    var got := AfterRequests(device, k).got;
    assert AfterRequests(device, k + 1) == Absorb(got, device(k, |got| % 256));
  }

  /**
   * The read loop never ends if and only if, from some request on, every answer is an empty chunk of an entry longer than
   * what has been read: nothing else can keep it going.
   */
  lemma EndlessIffStarved(device: Device)
    ensures (forall n :: Running(device, n)) <==> (exists m :: StarvesFrom(device, m))
  {
    if forall n :: Running(device, n) {
      var from := StopsGrowing(device, 0);
      forall k | k >= from ensures Starves(device(k, Held(device, from)), Held(device, from)) {
        NoGrowthStarves(device, from, k);
      }
      assert StarvesFrom(device, from);
    }
    if m :| StarvesFrom(device, m) {
      forall n ensures Running(device, n) {
        if n >= m {
          StarvingGoesOn(device, m, n);
        } else {
          HeldGrows(device, n, m);
        }
      }
    }
  }

  /** A device that serves `entry` in non-empty pieces from the offset asked for. */
  ghost predicate Serves(device: Device, entry: Bytes) {
    forall k: nat, o: byte :: o < |entry| || o == 0 ==>
      var c := device(k, o);
      && c.Chunk? && c.total == |entry|
      && c.data <= entry[o..]
      && (c.data == [] ==> entry == [])
  }

  lemma ServesNext(device: Device, entry: Bytes, k: nat, got: Bytes)
    requires Serves(device, entry) && got <= entry && (|got| < |entry| || got == [])
    requires |entry| <= 255
    ensures
      var c := device(k, |got| % 256);
      && c.Chunk? && c.total == |entry| && got + c.data <= entry
      && (|got| < |entry| ==> c.data != [])
  {
    assert |got| % 256 == |got|;
    assert got + entry[|got|..] == entry;
  }

  lemma AbsorbServed(entry: Bytes, got: Bytes, c: Chunk)
    requires c.Chunk? && c.total == |entry| && got + c.data <= entry
    ensures Absorb(got, c) == if |got + c.data| < |entry| then Partial(got + c.data) else Complete(entry)
  {
  }

  /** Reading back yields the entry: complete and unaltered, after at most one request per byte. */
  lemma {:induction false} ReadsBack(device: Device, entry: Bytes, n: nat)
    requires |entry| <= 255 && Serves(device, entry)
    ensures match AfterRequests(device, n)
            case Partial(got) => got <= entry && n <= |got| && (|got| < |entry| || n == 0)
            case Complete(data) => data == entry
            case Failed => false
    ensures n >= |entry| && n > 0 ==> AfterRequests(device, n) == Complete(entry)
  {
    if n > 0 {
      ReadsBack(device, entry, n - 1);
      var before := AfterRequests(device, n - 1);
      hide Serves;
      if before.Partial? {
        ServesNext(device, entry, n - 1, before.got);
        var c := device(n - 1, |before.got| % 256);
        assert AfterRequests(device, n) == Absorb(before.got, c);
        hide AfterRequests;
        AbsorbServed(entry, before.got, c);
      }
    }
  }

  /** Import followed by read-back: what arrives in the mirror is the payload that was imported. */
  lemma ImportedKeyReadsBack(category: byte, data: Bytes, device: Device, n: nat)
    requires 0 < |data| <= 255 && n >= |data|
    requires Serves(device, Staged([], Packets(category, data, 0)))
    ensures AfterRequests(device, n) == Complete(data)
  {
    StagesExactly(category, data);
    ReadsBack(device, data, n);
  }
}
