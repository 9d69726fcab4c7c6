/** SSH agent framing (`ssh_agent.rs`): sections 5 of RFC 4251 and 3.1 of RFC 5656. */
module SshFraming {
  import opened Wire
  import opened KeyEntries
  import opened ChunkTransfer

  const SSH_AGENT_IDENTITIES_ANSWER: byte := 12
  const SSH_AGENT_SIGN_RESPONSE: byte := 14

  // ---- Writing ----

  /** An mpint, sign byte included but leading zeros kept, as `append_ssh_mpint` writes it. */
  function Mpint(data: Bytes): Bytes {
    if data == [] then U32(0)
    else if data[0] >= 0x80 then U32(|data| + 1) + [0] + data
    else U32(|data|) + data
  }

  method AppendSshString(buf: Bytes, data: Bytes) returns (r: Bytes)
    ensures r == buf + SshString(data)
  {
    r := buf + U32(|data|);
    r := r + data;
    assert r == buf + SshString(data);
  }

  method AppendSshMpint(buf: Bytes, data: Bytes) returns (r: Bytes)
    ensures r == buf + Mpint(data)
  {
    if data == [] {
      return buf + U32(0);
    }
    if data[0] >= 0x80 {
      r := buf + U32(|data| + 1);
      r := r + [0];
      r := r + data;
    } else {
      r := buf + U32(|data|);
      r := r + data;
    }
    assert r == buf + Mpint(data);
  }

  // ---- Reading ----

  /** The string at `offset` and the offset behind it. */
  function StringAt(data: Bytes, offset: nat): (r: Option<(Bytes, nat)>)
    ensures r.Some? ==> offset + 4 <= r.value.1 <= |data| && r.value.0 == data[offset + 4..r.value.1]
  {
    if offset + 4 > |data| then None
    else
      var len := FromU32(data[offset], data[offset + 1], data[offset + 2], data[offset + 3]);
      if offset + 4 + len > |data| then None
      else Some((data[offset + 4..offset + 4 + len], offset + 4 + len))
  }

  /** `read_ssh_string`: the cursor has passed the length even when the bytes are missing. */
  method ReadSshString(data: Bytes, offset: nat) returns (s: Option<Bytes>, next: nat)
    ensures s == match StringAt(data, offset) case Some(r) => Some(r.0) case None => None
    ensures s.Some? ==> next == StringAt(data, offset).value.1
    ensures s.None? ==> next == if offset + 4 > |data| then offset else offset + 4
  {
    if offset + 4 > |data| {
      return None, offset;
    }
    var len := FromU32(data[offset], data[offset + 1], data[offset + 2], data[offset + 3]);
    next := offset + 4;
    if next + len > |data| {
      return None, next;
    }
    return Some(data[next..next + len]), next + len;
  }

  /** Reading finds a string wherever it was appended, and stops right behind it. */
  lemma StringReadsBack(before: Bytes, s: Bytes, after: Bytes)
    requires |s| < U32_SIZE
    ensures StringAt(before + SshString(s) + after, |before|) == Some((s, |before| + 4 + |s|))
  {
    var data := before + SshString(s) + after;
    var n := U32(|s|);
    assert data[|before|..|before| + 4] == n;
    assert data[|before|] == n[0] && data[|before| + 1] == n[1]
        && data[|before| + 2] == n[2] && data[|before| + 3] == n[3];
    U32RoundTrip(|s|);
    assert data[|before| + 4..|before| + 4 + |s|] == s;
  }

  lemma FirstString(s: Bytes, after: Bytes)
    requires |s| < U32_SIZE
    ensures StringAt(SshString(s) + after, 0) == Some((s, 4 + |s|)) && |SshString(s)| == 4 + |s|
  {
    StringReadsBack([], s, after);
    assert [] + SshString(s) + after == SshString(s) + after;
  }

  lemma LastString(before: Bytes, s: Bytes)
    requires |s| < U32_SIZE
    ensures StringAt(before + SshString(s), |before|) == Some((s, |before + SshString(s)|))
  {
    StringReadsBack(before, s, []);
    assert before + SshString(s) + [] == before + SshString(s);
  }

  /** The number an mpint's bytes stand for, two's complement: section 5 of RFC 4251. */
  function MpintValue(bytes: Bytes): int {
    if bytes == [] then 0
    else if bytes[0] >= 0x80 then BigEndian(bytes) - Pow256(|bytes|)
    else BigEndian(bytes)
  }

  function Pow256(n: nat): nat {
    if n == 0 then 1 else 256 * Pow256(n - 1)
  }

  lemma {:induction false} LeadingZero(data: Bytes)
    ensures BigEndian([0] + data) == BigEndian(data)
  {
    if data == [] {
      assert ([0] + data)[..0] == [];
    } else {
      var d := [0] + data;
      assert d[..|d| - 1] == [0] + data[..|data| - 1];
      LeadingZero(data[..|data| - 1]);
    }
  }

  /** An mpint is a string whose number is never negative, whatever its first byte. */
  lemma MpintIsString(data: Bytes) returns (s: Bytes)
    ensures Mpint(data) == SshString(s) && |s| <= |data| + 1 && MpintValue(s) == BigEndian(data)
  {
    if data != [] && data[0] >= 0x80 {
      s := [0] + data;
      LeadingZero(data);
      assert Mpint(data) == U32(|s|) + s;
    } else {
      s := data;
    }
  }

  // ---- The signature ----

  /** The reference reader of a sign response: the pair (r, s) of section 3.1.2 of RFC 5656. */
  function ParseSignResponse(body: Bytes): Option<(int, int)> {
    if body == [] || body[0] != 14 then None
    else
      match StringAt(body, 1)
      case None => None
      case Some((blob, end)) => if end == |body| then ParseSignatureBlob(blob) else None
  }

  function ParseSignatureBlob(blob: Bytes): Option<(int, int)> {
    match StringAt(blob, 0)
    case None => None
    case Some((name, p)) =>
      if name != KEY_TYPE then None
      else
        match StringAt(blob, p)
        case None => None
        case Some((pair, end)) => if end == |blob| then ParsePair(pair) else None
  }

  function ParsePair(pair: Bytes): Option<(int, int)> {
    match StringAt(pair, 0)
    case None => None
    case Some((r, p)) =>
      match StringAt(pair, p)
      case None => None
      case Some((s, end)) => if end == |pair| then Some((MpintValue(r), MpintValue(s))) else None
  }

  /** The body sent for a 64-byte device signature: two little-endian scalars, framed big-endian. */
  method SignResponseBody(signature: Bytes) returns (body: Bytes)
    requires |signature| == 64
    ensures ParseSignResponse(body) == Some((LittleEndian(signature[..32]), LittleEndian(signature[32..])))
  {
    ReversedValue(signature[..32]);
    ReversedValue(signature[32..]);
    body := FrameSignature(Reverse(signature[..32]), Reverse(signature[32..]));
  }

  /** Two big-endian scalars of 32 bytes as a sign response. */
  method FrameSignature(r: Bytes, s: Bytes) returns (body: Bytes)
    requires |r| == |s| == 32
    ensures ParseSignResponse(body) == Some((BigEndian(r), BigEndian(s)))
  {
    hide *;
    var first := AppendSshMpint([], r);
    var pair := AppendSshMpint(first, s);
    var name := AppendSshString([], KEY_TYPE);
    var blob := AppendSshString(name, pair);
    body := AppendSshString([SSH_AGENT_SIGN_RESPONSE], blob);
    assert first == Mpint(r) && name == SshString(KEY_TYPE);
    SignatureFrames(r, s, pair, blob, body);
  }

  lemma SignatureFrames(r: Bytes, s: Bytes, pair: Bytes, blob: Bytes, body: Bytes)
    requires |r| == |s| == 32
    requires pair == Mpint(r) + Mpint(s)
    requires blob == SshString(KEY_TYPE) + SshString(pair)
    requires body == [SSH_AGENT_SIGN_RESPONSE] + SshString(blob)
    ensures ParseSignResponse(body) == Some((BigEndian(r), BigEndian(s)))
  {
    PairReadsBack(r, s);
    BlobReadsBack(pair, blob);
    hide SshString, Mpint, StringAt, BigEndian, MpintValue, ParsePair, ParseSignatureBlob;
    LastString([SSH_AGENT_SIGN_RESPONSE], blob);
  }

  lemma BlobReadsBack(pair: Bytes, blob: Bytes)
    requires |pair| <= 74 && blob == SshString(KEY_TYPE) + SshString(pair)
    ensures |blob| <= 101 && ParseSignatureBlob(blob) == ParsePair(pair)
  {
    assert |KEY_TYPE| == 19;
    hide SshString, StringAt, ParsePair;
    FirstString(KEY_TYPE, SshString(pair));
    LastString(SshString(KEY_TYPE), pair);
    FirstString(pair, []);
  }

  lemma PairReadsBack(r: Bytes, s: Bytes)
    requires |r| == |s| == 32
    ensures |Mpint(r) + Mpint(s)| <= 74
    ensures ParsePair(Mpint(r) + Mpint(s)) == Some((BigEndian(r), BigEndian(s)))
  {
    var rs := MpintIsString(r);
    var ss := MpintIsString(s);
    hide SshString, Mpint, StringAt, BigEndian, MpintValue;
    FirstString(rs, SshString(ss));
    FirstString(ss, []);
    LastString(SshString(rs), ss);
  }

  /**
   * The signature used for an answer: what four KEY_RESULT requests assembled, or the sign reply
   * itself when that failed; `None` when neither is 64 bytes long.
   */
  method CollectSignature(device: Device, signReply: Bytes) returns (sig: Option<Bytes>)
    ensures sig.Some? ==> |sig.value| == 64
    ensures
      var read := AfterRequests(device, 4);
      if read.Complete? && |read.data| == 64 then sig == Some(read.data)
      else if |signReply| == 64 then sig == Some(signReply)
      else sig == None
  {
    var read := ReadChunks(device, 4);
    if read.Complete? && |read.data| == 64 {
      return Some(read.data);
    }
    return if |signReply| == 64 then Some(signReply) else None;
  }

  /** A device that serves its signature in pieces of at least 16 bytes is read within the limit. */
  lemma FourRequestsSuffice(device: Device, signature: Bytes)
    requires |signature| == 64 && Serves(device, signature)
    requires forall k: nat, o: byte :: k < 4 && o < 64 ==> |device(k, o).data| >= 16 || o as int + |device(k, o).data| == 64
    ensures AfterRequests(device, 4) == Complete(signature)
  {
    AssemblesQuickly(device, signature, 4);
  }

  lemma {:induction false} AssemblesQuickly(device: Device, signature: Bytes, n: nat)
    requires n <= 4 && |signature| == 64 && Serves(device, signature)
    requires forall k: nat, o: byte :: k < 4 && o < 64 ==> |device(k, o).data| >= 16 || o as int + |device(k, o).data| == 64
    ensures match AfterRequests(device, n)
            case Partial(got) => got <= signature && 16 * n <= |got| < 64
            case Complete(data) => data == signature
            case Failed => false
  {
    if n > 0 {
      AssemblesQuickly(device, signature, n - 1);
      var before := AfterRequests(device, n - 1);
      if before.Partial? {
        ServesNext(device, signature, n - 1, before.got);
        assert |before.got| % 256 == |before.got|;
      }
    }
  }

  // ---- The identities ----

  datatype Identity = Identity(blob: Bytes, comment: Bytes)

  function IdentityList(keys: seq<Identity>): Bytes {
    if keys == [] then []
    else SshString(keys[0].blob) + SshString(keys[0].comment) + IdentityList(keys[1..])
  }

  method IdentitiesAnswer(keys: seq<Identity>) returns (body: Bytes)
    ensures body == [12] + U32(|keys|) + IdentityList(keys)
  {
    body := [SSH_AGENT_IDENTITIES_ANSWER] + U32(|keys|);
    ghost var all := body + IdentityList(keys);
    for i := 0 to |keys|
      invariant all == body + IdentityList(keys[i..])
    {
      assert keys[i..][0] == keys[i] && keys[i..][1..] == keys[i + 1..];
      ConcatSteps(body, SshString(keys[i].blob), SshString(keys[i].comment), IdentityList(keys[i + 1..]));
      body := AppendSshString(body, keys[i].blob);
      body := AppendSshString(body, keys[i].comment);
    }
    assert keys[|keys|..] == [];
  }

  lemma ConcatSteps(a: Bytes, b: Bytes, c: Bytes, d: Bytes)
    ensures a + (b + c + d) == a + b + c + d
  {
  }

  /** The reference reader of an identities answer: `n` pairs of strings and nothing else. */
  function ParseIdentities(body: Bytes, offset: nat, n: nat): Option<seq<Identity>>
    decreases n
  {
    if n == 0 then if offset == |body| then Some([]) else None
    else
      match StringAt(body, offset)
      case None => None
      case Some((blob, p)) =>
        match StringAt(body, p)
        case None => None
        case Some((comment, q)) =>
          match ParseIdentities(body, q, n - 1)
          case None => None
          case Some(rest) => Some([Identity(blob, comment)] + rest)
  }

  predicate Framable(keys: seq<Identity>) {
    forall k <- keys :: |k.blob| < U32_SIZE && |k.comment| < U32_SIZE
  }

  lemma IdentityReadsBack(before: Bytes, k: Identity, rest: Bytes, body: Bytes) returns (p: nat)
    requires |k.blob| < U32_SIZE && |k.comment| < U32_SIZE
    requires body == before + SshString(k.blob) + SshString(k.comment) + rest
    ensures StringAt(body, |before|) == Some((k.blob, p))
    ensures StringAt(body, p) == Some((k.comment, |before + SshString(k.blob) + SshString(k.comment)|))
  {
    var blob, comment := SshString(k.blob), SshString(k.comment);
    p := |before + blob|;
    assert body == before + blob + (comment + rest);
    hide SshString, StringAt;
    StringReadsBack(before, k.blob, comment + rest);
    StringReadsBack(before + blob, k.comment, rest);
    FirstString(k.blob, []);
    FirstString(k.comment, []);
  }

  lemma ParseNext(body: Bytes, offset: nat, n: nat, k: Identity, p: nat, q: nat, rest: seq<Identity>)
    requires StringAt(body, offset) == Some((k.blob, p)) && StringAt(body, p) == Some((k.comment, q))
    requires ParseIdentities(body, q, n) == Some(rest)
    ensures ParseIdentities(body, offset, n + 1) == Some([k] + rest)
  {
    hide StringAt;
  }

  lemma ListNext(before: Bytes, keys: seq<Identity>)
    requires keys != [] && Framable(keys)
    ensures before + IdentityList(keys) == before + SshString(keys[0].blob) + SshString(keys[0].comment) + IdentityList(keys[1..])
    ensures Framable(keys[1..]) && |keys[0].blob| < U32_SIZE && |keys[0].comment| < U32_SIZE
  {
    hide SshString;
    ConcatSteps(before, SshString(keys[0].blob), SshString(keys[0].comment), IdentityList(keys[1..]));
  }

  lemma ListEnds(before: Bytes)
    ensures ParseIdentities(before + IdentityList([]), |before|, 0) == Some([])
  {
    assert before + IdentityList([]) == before;
  }

  /** Every key and comment comes back, in order. */
  lemma {:induction false} IdentitiesReadBack(before: Bytes, keys: seq<Identity>)
    requires Framable(keys)
    ensures ParseIdentities(before + IdentityList(keys), |before|, |keys|) == Some(keys)
    decreases |keys|
  {
    hide *;
    if keys == [] {
      ListEnds(before);
    } else {
      var k, body := keys[0], before + IdentityList(keys);
      var next := before + SshString(k.blob) + SshString(k.comment);
      ListNext(before, keys);
      var p := IdentityReadsBack(before, k, IdentityList(keys[1..]), body);
      IdentitiesReadBack(next, keys[1..]);
      ParseNext(body, |before|, |keys| - 1, k, p, |next|, keys[1..]);
      assert keys == [k] + keys[1..];
    }
  }

  // ---- The public key, from import file to agent ----

  /** The point inside a public key blob: section 3.1 of RFC 5656. */
  function ParsePublicKey(blob: Bytes): Option<Bytes> {
    match StringAt(blob, 0)
    case None => None
    case Some((name, p)) =>
      match StringAt(blob, p)
      case None => None
      case Some((curve, q)) =>
        match StringAt(blob, q)
        case None => None
        case Some((point, end)) =>
          if name == KEY_TYPE && curve == CURVE && |point| == 65 && point[0] == 4 && end == |blob|
          then Some(point[1..]) else None
  }

  lemma BlobStrings(pubkey: Bytes)
    requires |pubkey| == 64
    ensures var blob := PublicKeyBlob(pubkey);
      && |blob| == 104 && StringAt(blob, 0) == Some((KEY_TYPE, 23)) && StringAt(blob, 23) == Some((CURVE, 35))
      && StringAt(blob, 35) == Some(([4] + pubkey, 104))
  {
    var name, curve, point := SshString(KEY_TYPE), SshString(CURVE), SshString([4] + pubkey);
    var blob := PublicKeyBlob(pubkey);
    assert |KEY_TYPE| == 19 && |CURVE| == 8 && blob == name + curve + point;
    hide *;
    FirstString(KEY_TYPE, []);
    FirstString(CURVE, []);
    FirstString([4] + pubkey, []);
    FirstString(KEY_TYPE, curve + point);
    Associate(name, curve, point);
    StringReadsBack(name, CURVE, point);
    assert blob + [] == blob;
    StringReadsBack(name + curve, [4] + pubkey, []);
  }

  lemma BlobHoldsThePoint(pubkey: Bytes)
    requires |pubkey| == 64
    ensures ParsePublicKey(PublicKeyBlob(pubkey)) == Some(pubkey) && |PublicKeyBlob(pubkey)| == 104
  {
    BlobStrings(pubkey);
    hide StringAt, PublicKeyBlob;
    assert ([4] + pubkey)[1..] == pubkey;
  }

  /** `build_ssh_import_payload`: name field, then point and scalar with their bytes turned round. */
  function ImportPayload(name: Bytes, pubkey: Bytes, scalar: Bytes): Bytes
    requires |name| == NAME_LEN_SSH && |pubkey| == 64 && |scalar| == 32
  {
    name + SwapHalves(pubkey) + Reverse(scalar)
  }

  /** An imported key appears in the agent's cache as the very point the key file held. */
  lemma ImportedPointReachesTheAgent(index: nat, name: Bytes, pubkey: Bytes, scalar: Bytes)
    requires |name| == NAME_LEN_SSH && |pubkey| == 64 && |scalar| == 32
    ensures
      var payload := ImportPayload(name, pubkey, scalar);
      var entry := ReadSshEntry(index, payload);
      && |payload| == 112 && payload[80..] == Reverse(scalar)
      && entry.Some? && entry.value.name == UntilNul(name)
      && ParsePublicKey(entry.value.blob) == Some(pubkey)
  {
    var payload := ImportPayload(name, pubkey, scalar);
    assert payload[..16] == name && payload[16..80] == SwapHalves(pubkey);
    SwapHalvesTwice(pubkey);
    BlobHoldsThePoint(pubkey);
  }
}
