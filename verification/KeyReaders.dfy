/** Private key files decoded from PEM (`ssh_import.rs`): OpenSSH and SEC1 containers for P-256. */
module KeyReaders {
  import opened Wire
  import opened KeyEntries
  import opened SshFraming

  datatype KeyPair = KeyPair(scalar: Bytes, point: Bytes)

  datatype KeyError =
    | Truncated | BadMagic | Encrypted | KeyCount | CheckMismatch | WrongKeyType | WrongCurve
    | BadPublicKey | BadPrivateKey | NotSequence | NotVersion | NotOctetString | NoDerivation

  // ---- OpenSSH ----

  const MAGIC: Bytes := [111, 112, 101, 110, 115, 115, 104, 45, 107, 101, 121, 45, 118, 49, 0]
  const NONE: Bytes := [110, 111, 110, 101]

  lemma MagicSpelled()
    ensures MAGIC == Ascii("openssh-key-v1") + [0] && NONE == Ascii("none")
  {
  }

  function U32At(data: Bytes, pos: nat): (r: Result<(nat, nat), KeyError>)
    ensures r.Ok? ==> r.value.1 == pos + 4 <= |data|
  {
    if pos + 4 > |data| then Err(Truncated)
    else Ok((FromU32(data[pos], data[pos + 1], data[pos + 2], data[pos + 3]), pos + 4))
  }

  function FieldAt(data: Bytes, pos: nat): (r: Result<(Bytes, nat), KeyError>)
    ensures r.Ok? ==> pos + 4 <= r.value.1 <= |data|
  {
    match StringAt(data, pos)
    case None => Err(Truncated)
    case Some(field) => Ok(field)
  }

  /** The cursor of `read_u32` and `read_string`; it stays inside the data it walks over. */
  class Reader {
    const data: Bytes
    var pos: nat

    constructor (data: Bytes, pos: nat)
      requires pos <= |data|
      ensures this.data == data && this.pos == pos
    {
      this.data, this.pos := data, pos;
    }

    method ReadU32() returns (r: Result<nat, KeyError>)
      modifies this
      ensures match U32At(data, old(pos))
              case Ok((v, next)) => r == Ok(v) && pos == next
              case Err(e) => r == Err(e) && pos == old(pos)
    {
      if pos + 4 > |data| {
        return Err(Truncated);
      }
      r := Ok(FromU32(data[pos], data[pos + 1], data[pos + 2], data[pos + 3]));
      pos := pos + 4;
    }

    method ReadString() returns (r: Result<Bytes, KeyError>)
      modifies this
      ensures match FieldAt(data, old(pos))
              case Ok((v, next)) => r == Ok(v) && pos == next
              case Err(e) => r == Err(e)
    {
      var len :- ReadU32();
      if pos + len > |data| {
        return Err(Truncated);
      }
      r := Ok(data[pos..pos + len]);
      pos := pos + len;
    }
  }

  /** What an OpenSSH container holds, and which check fails first when it holds no usable key. */
  function OpenSshKey(data: Bytes): (r: Result<KeyPair, KeyError>)
    ensures r.Ok? ==> |r.value.scalar| == 32 && |r.value.point| == 64
  {
    if !(MAGIC <= data) then Err(BadMagic) else
    var (cipher, p1) :- FieldAt(data, |MAGIC|);
    if cipher != NONE then Err(Encrypted) else
    var (kdf, p2) :- FieldAt(data, p1);
    if kdf != NONE then Err(Encrypted) else
    var (_, p3) :- FieldAt(data, p2);
    var (keys, p4) :- U32At(data, p3);
    if keys != 1 then Err(KeyCount) else
    var (_, p5) :- FieldAt(data, p4);
    var (private, _) :- FieldAt(data, p5);
    PrivateSection(private)
  }

  function PrivateSection(data: Bytes): (r: Result<KeyPair, KeyError>)
    ensures r.Ok? ==> |r.value.scalar| == 32 && |r.value.point| == 64
  {
    var (check1, p1) :- U32At(data, 0);
    var (check2, p2) :- U32At(data, p1);
    if check1 != check2 then Err(CheckMismatch) else
    var (keyType, p3) :- FieldAt(data, p2);
    if keyType != KEY_TYPE then Err(WrongKeyType) else
    var (curve, p4) :- FieldAt(data, p3);
    if curve != CURVE then Err(WrongCurve) else PointAndScalar(data, p4)
  }

  /** The mpint's sign byte is dropped; nothing is padded back. */
  function ReadScalar(number: Bytes): Bytes {
    if |number| == 33 && number[0] == 0 then number[1..] else number
  }

  function PointAndScalar(data: Bytes, pos: nat): (r: Result<KeyPair, KeyError>)
    ensures r.Ok? ==> |r.value.scalar| == 32 && |r.value.point| == 64
  {
    var (point, p5) :- FieldAt(data, pos);
    if |point| != 65 || point[0] != 4 then Err(BadPublicKey) else
    var (number, _) :- FieldAt(data, p5);
    var scalar := ReadScalar(number);
    if |scalar| != 32 then Err(BadPrivateKey) else Ok(KeyPair(scalar, point[1..]))
  }

  method ParseOpenSshKey(data: Bytes) returns (r: Result<KeyPair, KeyError>)
    ensures r == OpenSshKey(data)
  {
    if !(MAGIC <= data) {
      return Err(BadMagic);
    }
    var reader := new Reader(data, |MAGIC|);
    var cipher :- reader.ReadString();
    if cipher != NONE {
      return Err(Encrypted);
    }
    var kdf :- reader.ReadString();
    if kdf != NONE {
      return Err(Encrypted);
    }
    var _ :- reader.ReadString();
    var keys :- reader.ReadU32();
    if keys != 1 {
      return Err(KeyCount);
    }
    var _ :- reader.ReadString();
    var private :- reader.ReadString();
    r := ParsePrivateSection(private);
  }

  method ParsePrivateSection(data: Bytes) returns (r: Result<KeyPair, KeyError>)
    ensures r == PrivateSection(data)
  {
    var reader := new Reader(data, 0);
    var check1 :- reader.ReadU32();
    var check2 :- reader.ReadU32();
    if check1 != check2 {
      return Err(CheckMismatch);
    }
    var keyType :- reader.ReadString();
    if keyType != KEY_TYPE {
      return Err(WrongKeyType);
    }
    var curve :- reader.ReadString();
    if curve != CURVE {
      return Err(WrongCurve);
    }
    r := ParsePointAndScalar(reader);
  }

  method ParsePointAndScalar(reader: Reader) returns (r: Result<KeyPair, KeyError>)
    modifies reader
    ensures r == PointAndScalar(reader.data, old(reader.pos))
  {
    var point :- reader.ReadString();
    if |point| != 65 || point[0] != 4 {
      return Err(BadPublicKey);
    }
    var scalar :- reader.ReadString();
    if |scalar| == 33 && scalar[0] == 0 {
      scalar := scalar[1..];
    }
    if |scalar| != 32 {
      return Err(BadPrivateKey);
    }
    return Ok(KeyPair(scalar, point[1..]));
  }

  // The reference encoder. OpenSSH writes the scalar as a minimal mpint: section 5 of RFC 4251.

  function StripZeros(bs: Bytes): (r: Bytes)
    ensures |r| <= |bs| && r == bs[|bs| - |r|..]
    ensures r != [] ==> r[0] != 0
    ensures bs != [] && bs[0] != 0 ==> r == bs
  {
    if bs != [] && bs[0] == 0 then StripZeros(bs[1..]) else bs
  }

  function MinimalMpint(scalar: Bytes): Bytes {
    var m := StripZeros(scalar);
    if m != [] && m[0] >= 0x80 then [0] + m else m
  }

  function EncodePrivate(key: KeyPair, check: nat, rest: Bytes): Bytes {
    U32(check) + U32(check) + SshString(KEY_TYPE) + SshString(CURVE)
    + SshString([4] + key.point) + SshString(MinimalMpint(key.scalar)) + rest
  }

  function EncodeOpenSsh(key: KeyPair, check: nat, publicBlob: Bytes, rest: Bytes): Bytes {
    MAGIC + SshString(NONE) + SshString(NONE) + SshString([]) + U32(1)
    + SshString(publicBlob) + SshString(EncodePrivate(key, check, rest))
  }

  /** A field that `data` continues with after `before` is the field a cursor there reads. */
  lemma FieldBehind(data: Bytes, before: Bytes, s: Bytes)
    requires |s| < U32_SIZE && before + SshString(s) <= data
    ensures FieldAt(data, |before|) == Ok((s, |before + SshString(s)|))
  {
    var field := SshString(s);
    var after := data[|before + field|..];
    assert data == before + field + after;
    StringReadsBack(before, s, after);
    FirstString(s, after);
  }

  lemma U32Behind(data: Bytes, before: Bytes, v: nat)
    requires before + U32(v) <= data
    ensures U32At(data, |before|) == Ok((v % U32_SIZE, |before + U32(v)|))
  {
    var n, all := U32(v), before + U32(v);
    var pos := |before|;
    assert forall i :: pos <= i < pos + 4 ==> data[i] == all[i] == n[i - pos];
    U32RoundTrip(v);
  }

  /** The scalars whose minimal mpint is 32 or 33 bytes long: the only ones the reader takes. */
  predicate WholeScalar(scalar: Bytes)
    requires |scalar| == 32
  {
    scalar[0] != 0 || scalar[1] >= 0x80
  }

  lemma Stripped(scalar: Bytes)
    requires |scalar| == 32
    ensures var m := StripZeros(scalar);
      if scalar[0] != 0 then m == scalar
      else if scalar[1] != 0 then m == scalar[1..]
      else |m| <= 30
  {
    if scalar[0] == 0 {
      assert StripZeros(scalar) == StripZeros(scalar[1..]);
      if scalar[1] == 0 {
        assert StripZeros(scalar[1..]) == StripZeros(scalar[1..][1..]);
      }
    }
  }

  lemma SignByteDropped(m: Bytes)
    ensures ([0] + m)[1..] == m
  {
  }

  lemma ScalarReadsBack(scalar: Bytes)
    requires |scalar| == 32
    ensures |MinimalMpint(scalar)| <= 33
    ensures WholeScalar(scalar) ==> ReadScalar(MinimalMpint(scalar)) == scalar
    ensures !WholeScalar(scalar) ==> |ReadScalar(MinimalMpint(scalar))| != 32
  {
    Stripped(scalar);
    var m := StripZeros(scalar);
    hide StripZeros;
    if scalar[0] != 0 {
      SignByteDropped(m);
    } else if scalar[1] != 0 {
      if m[0] >= 0x80 {
        SignByteDropped(m);
      }
      assert [0] + scalar[1..] == scalar;
    } else {
      SignByteDropped(m);
    }
  }

  lemma PrivateSectionReadsBack(key: KeyPair, check: nat, rest: Bytes)
    requires |key.scalar| == 32 && |key.point| == 64
    ensures PrivateSection(EncodePrivate(key, check, rest))
         == if WholeScalar(key.scalar) then Ok(key) else Err(BadPrivateKey)
  {
    var point, number := [4] + key.point, MinimalMpint(key.scalar);
    var b1 := U32(check);
    var b2 := b1 + U32(check);
    var b3 := b2 + SshString(KEY_TYPE);
    var b4 := b3 + SshString(CURVE);
    var tail := SshString(point) + SshString(number) + rest;
    var data := b4 + tail;
    assert data == EncodePrivate(key, check, rest);
    PointAndScalarReadBack(b4, key, rest);
    hide SshString, FieldAt, U32At, U32, PointAndScalar, WholeScalar, EncodePrivate, MinimalMpint;
    assert b1 <= b2 <= b3 <= b4 <= data;
    U32Behind(data, [], check);
    assert [] + U32(check) == b1;
    U32Behind(data, b1, check);
    FieldBehind(data, b2, KEY_TYPE);
    FieldBehind(data, b3, CURVE);
  }

  lemma PointAndScalarReadBack(before: Bytes, key: KeyPair, rest: Bytes)
    requires |key.scalar| == 32 && |key.point| == 64
    ensures
      var data := before + (SshString([4] + key.point) + SshString(MinimalMpint(key.scalar)) + rest);
      PointAndScalar(data, |before|) == if WholeScalar(key.scalar) then Ok(key) else Err(BadPrivateKey)
  {
    var point, number := [4] + key.point, MinimalMpint(key.scalar);
    ScalarReadsBack(key.scalar);
    assert point[1..] == key.point;
    hide SshString, FieldAt, MinimalMpint, WholeScalar, ReadScalar;
    var b1 := before + SshString(point);
    var b2 := b1 + SshString(number);
    var data := before + (SshString(point) + SshString(number) + rest);
    Associate(before, SshString(point) + SshString(number), rest);
    Associate(before, SshString(point), SshString(number));
    FieldBehind(data, before, point);
    FieldBehind(data, b1, number);
  }

  /**
   * The reader inverts the OpenSSH encoding exactly when the scalar survives its minimal mpint form
   * as 32 or 33 bytes: one key in 512 is refused although it is perfectly valid.
   */
  lemma OpenSshReadsBack(key: KeyPair, check: nat, publicBlob: Bytes, rest: Bytes)
    requires |key.scalar| == 32 && |key.point| == 64
    requires |publicBlob| < U32_SIZE && |EncodePrivate(key, check, rest)| < U32_SIZE
    ensures OpenSshKey(EncodeOpenSsh(key, check, publicBlob, rest))
         == if WholeScalar(key.scalar) then Ok(key) else Err(BadPrivateKey)
  {
    var data, private := EncodeOpenSsh(key, check, publicBlob, rest), EncodePrivate(key, check, rest);
    var b1 := MAGIC + SshString(NONE);
    var b2 := b1 + SshString(NONE);
    var b3 := b2 + SshString([]);
    var b4 := b3 + U32(1);
    var b5 := b4 + SshString(publicBlob);
    assert data == b5 + SshString(private);
    PrivateSectionReadsBack(key, check, rest);
    hide SshString, FieldAt, U32At, U32, EncodePrivate, PrivateSection;
    assert MAGIC <= b1 <= b2 <= b3 <= b4 <= b5 <= data;
    FieldBehind(data, MAGIC, NONE);
    FieldBehind(data, b1, NONE);
    FieldBehind(data, b2, []);
    U32Behind(data, b3, 1);
    FieldBehind(data, b4, publicBlob);
    FieldBehind(data, b5, private);
  }

  // ---- SEC1 ----

  const USIZE := 0x1_0000_0000_0000_0000

  /** The length bytes shifted into a 64-bit `usize`; bits shifted out at the top are gone. */
  function DerLength(data: Bytes, pos: nat, n: nat): (len: nat)
    requires pos + n <= |data|
  {
    if n == 0 then 0 else (DerLength(data, pos, n - 1) * 256 + data[pos + n - 1]) % USIZE
  }

  /** Tag, content length and content offset of the DER element at `pos`. */
  function DerAt(data: Bytes, pos: nat): (r: Result<(byte, nat, nat), KeyError>)
    ensures r.Ok? ==> pos + 2 <= r.value.2 && r.value.2 + r.value.1 <= |data|
  {
    if pos + 2 > |data| then Err(Truncated)
    else if data[pos + 1] < 0x80 then
      if data[pos + 1] > |data| - (pos + 2) then Err(Truncated)
      else Ok((data[pos], data[pos + 1], pos + 2))
    else
      var n := data[pos + 1] - 0x80;
      if pos + 2 + n > |data| then Err(Truncated)
      else
        var len := DerLength(data, pos + 2, n);
        if len > |data| - (pos + 2 + n) then Err(Truncated)
        else Ok((data[pos], len, pos + 2 + n))
  }

  method DerTagLen(data: Bytes, pos: nat) returns (r: Result<(byte, nat, nat), KeyError>)
    ensures r == DerAt(data, pos)
  {
    if pos + 2 > |data| {
      return Err(Truncated);
    }
    var tag, first, at := data[pos], data[pos + 1], pos + 2;
    var len: nat := first;
    if first >= 0x80 {
      var n := first - 0x80;
      if at + n > |data| {
        return Err(Truncated);
      }
      len := 0;
      for i := 0 to n
        invariant len == DerLength(data, at, i)
      {
        len := (len * 256 + data[at + i]) % USIZE;
      }
      at := at + n;
    }
    if len > |data| - at {
      return Err(Truncated);
    }
    return Ok((tag, len, at));
  }

  /** The public key among the elements from `pos` on: the last well-formed one, if any. */
  function PublicKeyAfter(der: Bytes, pos: nat, found: Option<Bytes>): (r: Result<Option<Bytes>, KeyError>)
    requires found.Some? ==> |found.value| == 64
    ensures r.Ok? && r.value.Some? ==> |r.value.value| == 64
    decreases |der| - pos
  {
    if pos >= |der| then Ok(found)
    else
      var (tag, len, at) :- DerAt(der, pos);
      if tag != 0xA1 then PublicKeyAfter(der, at + len, found)
      else
        var (innerTag, innerLen, inner) :- DerAt(der, at);
        PublicKeyAfter(der, at + len, if IsPublicKey(der, innerTag, innerLen, inner) then Some(der[inner + 2..inner + 66]) else found)
  }

  predicate IsPublicKey(der: Bytes, tag: byte, len: nat, at: nat) {
    tag == 0x03 && len >= 66 && at + 66 <= |der| && der[at] == 0 && der[at + 1] == 4
  }

  type Point = b: Bytes | |b| == 64 witness seq(64, _ => 0)

  /** `derive` is the curve's public key derivation; it fails for a scalar out of range. */
  function Sec1Key(der: Bytes, derive: Bytes -> Option<Point>): (r: Result<KeyPair, KeyError>)
    ensures r.Ok? ==> |r.value.scalar| == 32 && |r.value.point| == 64
  {
    var (sequence, _, p1) :- DerAt(der, 0);
    if sequence != 0x30 then Err(NotSequence) else
    var (version, versionLen, p2) :- DerAt(der, p1);
    if version != 0x02 then Err(NotVersion) else
    var (octets, scalarLen, p3) :- DerAt(der, p2 + versionLen);
    if octets != 0x04 then Err(NotOctetString) else
    if scalarLen != 32 then Err(BadPrivateKey) else
    var scalar := der[p3..p3 + 32];
    var found :- PublicKeyAfter(der, p3 + 32, None);
    match found
    case Some(point) => Ok(KeyPair(scalar, point))
    case None =>
      match derive(scalar)
      case Some(point) => Ok(KeyPair(scalar, point))
      case None => Err(NoDerivation)
  }

  method ParseSec1(der: Bytes, derive: Bytes -> Option<Point>) returns (r: Result<KeyPair, KeyError>)
    ensures r == Sec1Key(der, derive)
  {
    var sequence :- DerTagLen(der, 0);
    if sequence.0 != 0x30 {
      return Err(NotSequence);
    }
    var version :- DerTagLen(der, sequence.2);
    if version.0 != 0x02 {
      return Err(NotVersion);
    }
    var octets :- DerTagLen(der, version.2 + version.1);
    if octets.0 != 0x04 {
      return Err(NotOctetString);
    }
    var pos := octets.2;
    if octets.1 != 32 || pos + 32 > |der| {
      return Err(BadPrivateKey);
    }
    var scalar := der[pos..pos + 32];
    var found :- FindPublicKey(der, pos + 32);
    if found.None? {
      match derive(scalar)
      case Some(point) => return Ok(KeyPair(scalar, point));
      case None => return Err(NoDerivation);
    }
    return Ok(KeyPair(scalar, found.value));
  }

  method FindPublicKey(der: Bytes, from: nat) returns (r: Result<Option<Bytes>, KeyError>)
    ensures r == PublicKeyAfter(der, from, None)
  {
    var found: Option<Bytes> := None;
    var pos := from;
    while pos < |der|
      invariant found.Some? ==> |found.value| == 64
      invariant PublicKeyAfter(der, pos, found) == PublicKeyAfter(der, from, None)
      decreases |der| - pos
    {
      var element :- DerTagLen(der, pos);
      if element.0 == 0xA1 {
        var bits :- DerTagLen(der, element.2);
        if IsPublicKey(der, bits.0, bits.1, bits.2) {
          found := Some(der[bits.2 + 2..bits.2 + 66]);
        }
      }
      pos := element.2 + element.1;
    }
    return Ok(found);
  }

  // The reference encoder: section 3 of RFC 5915, with short-form lengths throughout.

  const CURVE_OID: Bytes := [0x06, 0x08, 0x2A, 0x86, 0x48, 0xCE, 0x3D, 0x03, 0x01, 0x07]

  function Der(tag: byte, content: Bytes): Bytes
    requires |content| < 0x80
  {
    [tag, |content|] + content
  }

  function PublicKeyElement(point: Bytes): Bytes
    requires |point| == 64
  {
    Der(0xA1, Der(0x03, [0, 4] + point))
  }

  function Optional(key: KeyPair, parameters: bool, public: bool): (r: Bytes)
    requires |key.point| == 64
    ensures |r| <= 82
  {
    (if parameters then Der(0xA0, CURVE_OID) else []) + if public then PublicKeyElement(key.point) else []
  }

  function EncodeSec1(key: KeyPair, parameters: bool, public: bool): Bytes
    requires |key.scalar| == 32 && |key.point| == 64
  {
    Der(0x30, Der(0x02, [1]) + Der(0x04, key.scalar) + Optional(key, parameters, public))
  }

  lemma DerBehind(data: Bytes, before: Bytes, tag: byte, content: Bytes)
    requires |content| < 0x80 && before + Der(tag, content) <= data
    ensures DerAt(data, |before|) == Ok((tag, |content|, |before| + 2))
    ensures data[|before| + 2..|before| + 2 + |content|] == content
  {
    var all := before + Der(tag, content);
    assert all[|before|] == tag && all[|before| + 1] == |content|;
    assert data[|before|] == all[|before|] && data[|before| + 1] == all[|before| + 1];
    assert all[|before| + 2..] == content;
    assert data[|before| + 2..|all|] == content;
  }

  lemma PublicKeyElementAt(der: Bytes, before: Bytes, point: Bytes)
    requires |point| == 64 && der == before + PublicKeyElement(point)
    ensures |der| == |before| + 70
    ensures DerAt(der, |before|) == Ok((0xA1, 68, |before| + 2))
    ensures DerAt(der, |before| + 2) == Ok((0x03, 66, |before| + 4))
    ensures IsPublicKey(der, 0x03, 66, |before| + 4)
    ensures der[|before| + 6..|before| + 70] == point
  {
    var bits := [0, 4] + point;
    var inner := Der(0x03, bits);
    var head := before + [0xA1, |inner|];
    assert |inner| == 68;
    assert der == before + Der(0xA1, inner) == head + inner;
    hide DerAt, Der, PublicKeyElement;
    DerBehind(der, before, 0xA1, inner);
    DerBehind(der, head, 0x03, bits);
    var at := |before| + 4;
    assert der[at..at + 66] == bits;
    assert der[at] == bits[0] && der[at + 1] == bits[1];
    assert der[at + 2..at + 66] == bits[2..] == point;
  }

  lemma PublicKeyFound(before: Bytes, point: Bytes)
    requires |point| == 64
    ensures PublicKeyAfter(before + PublicKeyElement(point), |before|, None) == Ok(Some(point))
  {
    var der := before + PublicKeyElement(point);
    PublicKeyElementAt(der, before, point);
    hide DerAt, Der, PublicKeyElement, IsPublicKey;
    assert PublicKeyAfter(der, |der|, Some(point)) == Ok(Some(point));
  }

  /** Whichever optional elements follow the scalar, the search ends on the public key, if it is there. */
  lemma OptionalRead(before: Bytes, key: KeyPair, parameters: bool, public: bool)
    requires |key.point| == 64
    ensures PublicKeyAfter(before + Optional(key, parameters, public), |before|, None)
         == Ok(if public then Some(key.point) else None)
  {
    var oid := if parameters then Der(0xA0, CURVE_OID) else [];
    var last := if public then PublicKeyElement(key.point) else [];
    var der, middle := before + Optional(key, parameters, public), before + oid;
    Associate(before, oid, last);
    assert der == middle + last && middle <= der;
    hide DerAt, Der, PublicKeyElement, Optional, IsPublicKey;
    assert PublicKeyAfter(der, |middle|, None) == Ok(if public then Some(key.point) else None) by {
      if public {
        PublicKeyFound(middle, key.point);
      } else {
        assert |der| == |middle|;
      }
    }
    if parameters {
      ParametersSkipped(der, before);
    }
  }

  lemma ParametersSkipped(der: Bytes, before: Bytes)
    requires before + Der(0xA0, CURVE_OID) <= der
    ensures PublicKeyAfter(der, |before|, None) == PublicKeyAfter(der, |before + Der(0xA0, CURVE_OID)|, None)
  {
    DerBehind(der, before, 0xA0, CURVE_OID);
    hide DerAt;
  }

  lemma Sec1Layout(key: KeyPair, parameters: bool, public: bool, version: Bytes, octets: Bytes, optional: Bytes)
    requires |key.scalar| == 32 && |key.point| == 64
    requires version == Der(0x02, [1]) && octets == Der(0x04, key.scalar) && optional == Optional(key, parameters, public)
    ensures |version + octets + optional| < 0x80
    ensures EncodeSec1(key, parameters, public) == Der(0x30, version + octets + optional)
    ensures EncodeSec1(key, parameters, public) == [0x30, |version + octets + optional|] + version + octets + optional
  {
    var body := version + octets + optional;
    var der := EncodeSec1(key, parameters, public);
    assert der == Der(0x30, body) == [0x30, |body|] + body;
    hide Der, Optional, EncodeSec1;
    Associate([0x30, |body|], version + octets, optional);
    Associate([0x30, |body|], version, octets);
  }

  /** The elements the reader meets in turn. */
  lemma Sec1Elements(key: KeyPair, parameters: bool, public: bool)
    requires |key.scalar| == 32 && |key.point| == 64
    ensures var der := EncodeSec1(key, parameters, public);
      && |der| >= 39
      && DerAt(der, 0) == Ok((0x30, |der| - 2, 2)) && DerAt(der, 2) == Ok((0x02, 1, 4)) && DerAt(der, 5) == Ok((0x04, 32, 7))
      && der[7..39] == key.scalar
      && PublicKeyAfter(der, 39, None) == Ok(if public then Some(key.point) else None)
  {
    var version, octets := Der(0x02, [1]), Der(0x04, key.scalar);
    var optional := Optional(key, parameters, public);
    assert |version| == 3 && |octets| == 34;
    Sec1Layout(key, parameters, public, version, octets, optional);
    hide *;
    var body := version + octets + optional;
    var der := EncodeSec1(key, parameters, public);
    var head := [0x30, |body|];
    var b1 := head + version;
    var b2 := b1 + octets;
    OptionalRead(b2, key, parameters, public);
    assert [] + der == der && head <= b1 <= b2 <= der;
    DerBehind(der, [], 0x30, body);
    DerBehind(der, head, 0x02, [1]);
    DerBehind(der, b1, 0x04, key.scalar);
  }

  /** The reader on elements that are what they should be. */
  lemma Sec1Reads(der: Bytes, derive: Bytes -> Option<Point>, key: KeyPair, found: Option<Point>)
    requires |der| >= 39 && |key.scalar| == 32 && |key.point| == 64
    requires DerAt(der, 0) == Ok((0x30, |der| - 2, 2)) && DerAt(der, 2) == Ok((0x02, 1, 4)) && DerAt(der, 5) == Ok((0x04, 32, 7))
    requires der[7..39] == key.scalar && PublicKeyAfter(der, 39, None) == Ok(found)
    requires (if found.Some? then found else derive(key.scalar)) == Some(key.point)
    ensures Sec1Key(der, derive) == Ok(key)
  {
    hide DerAt, PublicKeyAfter;
  }

  /** With or without curve parameters and public key, the reader inverts the SEC1 encoding. */
  lemma Sec1ReadsBack(key: KeyPair, parameters: bool, public: bool, derive: Bytes -> Option<Point>)
    requires |key.scalar| == 32 && |key.point| == 64
    requires derive(key.scalar) == Some(key.point)
    ensures Sec1Key(EncodeSec1(key, parameters, public), derive) == Ok(key)
  {
    hide *;
    Sec1Elements(key, parameters, public);
    Sec1Reads(EncodeSec1(key, parameters, public), derive, key, if public then Some(key.point) else None);
  }
}
