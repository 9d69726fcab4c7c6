/** Which files the two private key readers take, and what they find in them. */
module KeyFormats {
  import opened Wire
  import opened KeyEntries
  import opened SshFraming
  import opened KeyReaders

  // ---- Fields ----

  lemma LowByteOff(high: nat, low: byte)
    ensures (256 * high + low) / 256 == high && (256 * high + low) % 256 == low
  {
  }

  lemma BytesOfU32(a: byte, b: byte, c: byte, d: byte)
    ensures U32(FromU32(a, b, c, d)) == [a, b, c, d]
  {
    var ab: nat := 256 * a + b;
    var abc := 256 * ab + c;
    var v := 256 * abc + d;
    assert v == FromU32(a, b, c, d) && v % U32_SIZE == v;
    LowByteOff(abc, d);
    LowByteOff(ab, c);
    LowByteOff(a, b);
  }

  /** A number is read exactly where its four bytes stand, and the cursor goes behind them. */
  lemma U32Read(data: Bytes, pos: nat)
    requires U32At(data, pos).Ok?
    ensures var (v, next) := U32At(data, pos).value; next <= |data| && data[..next] == data[..pos] + U32(v)
  {
    BytesOfU32(data[pos], data[pos + 1], data[pos + 2], data[pos + 3]);
    assert data[pos..pos + 4] == [data[pos], data[pos + 1], data[pos + 2], data[pos + 3]];
    assert data[..pos + 4] == data[..pos] + data[pos..pos + 4];
  }

  /** A field is read exactly where it stands with its length in front. */
  lemma FieldRead(data: Bytes, pos: nat)
    requires FieldAt(data, pos).Ok?
    ensures var (s, next) := FieldAt(data, pos).value; |s| < U32_SIZE && data[..next] == data[..pos] + SshString(s)
  {
    var (s, next) := FieldAt(data, pos).value;
    U32Read(data, pos);
    assert U32At(data, pos).value.0 == |s|;
    assert data[..next] == data[..pos + 4] + data[pos + 4..next];
    hide U32;
    Associate(data[..pos], U32(|s|), s);
  }

  // ---- OpenSSH ----

  /** What a container says besides the words it must: the derivation's options, the public blob, the private section, padding. */
  datatype Container = Container(options: Bytes, publicBlob: Bytes, private: Bytes, tail: Bytes) {
    predicate Fits() {
      |options| < U32_SIZE && |publicBlob| < U32_SIZE && |private| < U32_SIZE
    }

    function Head(): Bytes {
      MAGIC + SshString(NONE) + SshString(NONE) + SshString(options) + U32(1) + SshString(publicBlob)
    }

    function Written(): Bytes {
      Head() + SshString(private) + tail
    }
  }

  /** One private section: its check number, the private number's bytes, and whatever follows. */
  datatype Section = Section(check: nat, number: Bytes, rest: Bytes) {
    predicate Fits() {
      check < U32_SIZE && |number| < U32_SIZE
    }

    function Head(): Bytes {
      U32(check) + U32(check) + SshString(KEY_TYPE) + SshString(CURVE)
    }

    function Written(point: Bytes): Bytes {
      Head() + SshString([4] + point) + SshString(number) + rest
    }
  }

  /** The scalar's 32 bytes, with or without a sign byte in front. */
  predicate Spells(number: Bytes, scalar: Bytes) {
    |scalar| == 32 && (number == scalar || number == [0] + scalar)
  }

  /** `data` is this container, holding this section, holding `key`. */
  predicate Holds(data: Bytes, key: KeyPair, c: Container, x: Section) {
    && c.Fits() && data == c.Written()
    && x.Fits() && |key.point| == 64 && c.private == x.Written(key.point) && Spells(x.number, key.scalar)
  }

  lemma ContainerReads(c: Container)
    requires c.Fits()
    ensures OpenSshKey(c.Written()) == PrivateSection(c.private)
  {
    var data := c.Written();
    var b1 := MAGIC + SshString(NONE);
    var b2 := b1 + SshString(NONE);
    var b3 := b2 + SshString(c.options);
    var b4 := b3 + U32(1);
    var b5 := b4 + SshString(c.publicBlob);
    var b6 := b5 + SshString(c.private);
    assert data == b6 + c.tail;
    hide SshString, FieldAt, U32At, U32, PrivateSection, c.Written, c.Head;
    assert MAGIC <= b1 <= b2 <= b3 <= b4 <= b5 <= b6 <= data;
    FieldBehind(data, MAGIC, NONE);
    FieldBehind(data, b1, NONE);
    FieldBehind(data, b2, c.options);
    U32Behind(data, b3, 1);
    FieldBehind(data, b4, c.publicBlob);
    FieldBehind(data, b5, c.private);
  }

  lemma HeadReads(data: Bytes, x: Section)
    requires x.Fits() && x.Head() <= data
    ensures PrivateSection(data) == PointAndScalar(data, |x.Head()|)
  {
    var b1 := U32(x.check);
    var b2 := b1 + U32(x.check);
    var b3 := b2 + SshString(KEY_TYPE);
    var b4 := b3 + SshString(CURVE);
    assert b4 == x.Head();
    hide SshString, FieldAt, U32At, U32, PointAndScalar, x.Head;
    assert b1 <= b2 <= b3 <= b4 <= data;
    assert [] + U32(x.check) == b1;
    U32Behind(data, [], x.check);
    U32Behind(data, b1, x.check);
    FieldBehind(data, b2, KEY_TYPE);
    FieldBehind(data, b3, CURVE);
  }

  lemma SectionReads(x: Section, key: KeyPair)
    requires x.Fits() && |key.point| == 64 && Spells(x.number, key.scalar)
    ensures PrivateSection(x.Written(key.point)) == Ok(key)
  {
    var point := [4] + key.point;
    var data := x.Written(key.point);
    var b4 := x.Head();
    var b5 := b4 + SshString(point);
    var b6 := b5 + SshString(x.number);
    assert data == b6 + x.rest;
    assert point[1..] == key.point && ReadScalar(x.number) == key.scalar && |key.scalar| == 32;
    hide SshString, FieldAt, ReadScalar, Spells, PrivateSection, x.Head, x.Written;
    assert b4 <= b5 <= b6 <= data;
    HeadReads(data, x);
    FieldBehind(data, b4, point);
    FieldBehind(data, b5, x.number);
  }

  lemma ReadContainer(data: Bytes) returns (c: Container)
    requires OpenSshKey(data).Ok?
    ensures c.Fits() && data == c.Written() && PrivateSection(c.private) == OpenSshKey(data)
  {
    hide SshString, FieldAt, U32At, U32, PrivateSection;
    var p1 := FieldAt(data, |MAGIC|).value.1;
    var p2 := FieldAt(data, p1).value.1;
    var (options, p3) := FieldAt(data, p2).value;
    var p4 := U32At(data, p3).value.1;
    var (blob, p5) := FieldAt(data, p4).value;
    var (private, p6) := FieldAt(data, p5).value;
    assert data[..|MAGIC|] == MAGIC;
    FieldRead(data, |MAGIC|);
    FieldRead(data, p1);
    FieldRead(data, p2);
    U32Read(data, p3);
    FieldRead(data, p4);
    FieldRead(data, p5);
    c := Container(options, blob, private, data[p6..]);
    hide OpenSshKey;
    assert data == data[..p6] + data[p6..];
  }

  lemma ReadPoint(data: Bytes, pos: nat, key: KeyPair) returns (number: Bytes, next: nat)
    requires PointAndScalar(data, pos) == Ok(key)
    ensures pos <= next <= |data| && |key.point| == 64 && |number| < U32_SIZE && Spells(number, key.scalar)
    ensures data[..next] == data[..pos] + SshString([4] + key.point) + SshString(number)
  {
    hide SshString, FieldAt;
    var (point, p5) := FieldAt(data, pos).value;
    number, next := FieldAt(data, p5).value.0, FieldAt(data, p5).value.1;
    assert point == [4] + key.point;
    assert Spells(number, key.scalar);
    FieldRead(data, pos);
    FieldRead(data, p5);
  }

  lemma ReadChecks(data: Bytes) returns (check: nat, next: nat)
    requires U32At(data, 0).Ok? && U32At(data, U32At(data, 0).value.1).Ok?
    requires U32At(data, 0).value.0 == U32At(data, U32At(data, 0).value.1).value.0
    ensures check < U32_SIZE && next <= |data| && data[..next] == U32(check) + U32(check)
    ensures next == U32At(data, U32At(data, 0).value.1).value.1
  {
    check := U32At(data, 0).value.0;
    next := U32At(data, U32At(data, 0).value.1).value.1;
    assert check < U32_SIZE;
    U32Read(data, 0);
    U32Read(data, U32At(data, 0).value.1);
    hide U32, U32At;
    assert data[..0] + U32(check) == U32(check);
  }

  lemma ReadHead(data: Bytes) returns (check: nat, next: nat)
    requires PrivateSection(data).Ok?
    ensures check < U32_SIZE && next <= |data| && PrivateSection(data) == PointAndScalar(data, next)
    ensures data[..next] == U32(check) + U32(check) + SshString(KEY_TYPE) + SshString(CURVE)
  {
    hide SshString, FieldAt, U32At, U32, PointAndScalar;
    var p2: nat;
    check, p2 := ReadChecks(data);
    var p3 := FieldAt(data, p2).value.1;
    next := FieldAt(data, p3).value.1;
    FieldRead(data, p2);
    FieldRead(data, p3);
  }

  lemma ReadSection(data: Bytes, key: KeyPair) returns (x: Section)
    requires PrivateSection(data) == Ok(key)
    ensures x.Fits() && |key.point| == 64 && data == x.Written(key.point) && Spells(x.number, key.scalar)
  {
    hide SshString, U32, PointAndScalar, PrivateSection, Spells;
    var check, p4 := ReadHead(data);
    var number, p6 := ReadPoint(data, p4, key);
    x := Section(check, number, data[p6..]);
    assert data[..p4] == x.Head();
    hide x.Head;
    assert data == data[..p6] + data[p6..];
  }

  /**
   * The OpenSSH reader yields a key exactly for the files that hold it: one unencrypted P-256 key, the two check numbers equal,
   * the point uncompressed, the private number spelled in 32 bytes or with a zero in front.
   */
  lemma OpenSshIff(data: Bytes, key: KeyPair)
    ensures OpenSshKey(data) == Ok(key) <==> exists c, x :: Holds(data, key, c, x)
  {
    if OpenSshKey(data) == Ok(key) {
      var c := ReadContainer(data);
      hide OpenSshKey;
      var x := ReadSection(c.private, key);
      assert Holds(data, key, c, x);
    }
    if c, x :| Holds(data, key, c, x) {
      ContainerReads(c);
      SectionReads(x, key);
    }
  }

  // ---- SEC1 ----

  lemma {:induction false} DerLengthMeans(data: Bytes, pos: nat, n: nat)
    requires pos + n <= |data|
    ensures DerLength(data, pos, n) == BigEndian(data[pos..pos + n]) % USIZE
  {
    if n > 0 {
      DerLengthMeans(data, pos, n - 1);
      var bs := data[pos..pos + n];
      assert bs[..n - 1] == data[pos..pos + n - 1];
      hide DerLength;
      LowBits(BigEndian(bs[..n - 1]), bs[n - 1]);
    }
  }

  lemma LowBits(a: nat, b: byte)
    ensures ((a % USIZE) * 256 + b) % USIZE == (256 * a + b) % USIZE
  {
    var q := a / USIZE;
    assert a == q * USIZE + a % USIZE;
    assert 256 * a + b == (256 * q) * USIZE + ((a % USIZE) * 256 + b);
    Whole((a % USIZE) * 256 + b, 256 * q);
  }

  lemma {:induction false} Whole(r: nat, k: nat)
    ensures (k * USIZE + r) % USIZE == r % USIZE
    decreases k
  {
    if k > 0 {
      Whole(r, k - 1);
      assert k * USIZE + r == ((k - 1) * USIZE + r) + USIZE;
    }
  }

  /** What stands between an element's tag and its content: one length byte, or how many follow and then those. */
  predicate LengthBytes(bs: Bytes, len: nat) {
    || (|bs| == 1 && bs[0] < 0x80 && len == bs[0])
    || (bs != [] && bs[0] >= 0x80 && |bs| == 1 + (bs[0] - 0x80) && len == BigEndian(bs[1..]) % USIZE)
  }

  /** At `pos` an element stands with its tag, its length and all of its content, which begins at `at`. */
  predicate ElementAt(data: Bytes, pos: nat, tag: byte, len: nat, at: nat) {
    pos + 2 <= at && at + len <= |data| && data[pos] == tag && LengthBytes(data[pos + 1..at], len)
  }

  lemma DerIff(data: Bytes, pos: nat, tag: byte, len: nat, at: nat)
    ensures DerAt(data, pos) == Ok((tag, len, at)) <==> ElementAt(data, pos, tag, len, at)
  {
    if pos + 2 <= |data| {
      var n := if data[pos + 1] < 0x80 then 0 else data[pos + 1] - 0x80;
      if pos + 2 + n <= |data| {
        DerLengthMeans(data, pos + 2, n);
        assert data[pos + 1..pos + 2 + n][1..] == data[pos + 2..pos + 2 + n];
      }
      hide DerLength, BigEndian;
      if pos + 2 <= at <= |data| {
        assert data[pos + 1..at][0] == data[pos + 1];
      }
    }
  }

  lemma DerLonger(data: Bytes, more: Bytes, pos: nat)
    requires DerAt(data, pos).Ok?
    ensures DerAt(data + more, pos) == DerAt(data, pos)
  {
    var (tag, len, at) := DerAt(data, pos).value;
    DerIff(data, pos, tag, len, at);
    DerIff(data + more, pos, tag, len, at);
    hide DerAt, LengthBytes;
    assert (data + more)[pos + 1..at] == data[pos + 1..at];
  }

  lemma PublicKeyLonger(der: Bytes, more: Bytes, tag: byte, len: nat, at: nat)
    requires at + len <= |der|
    ensures IsPublicKey(der + more, tag, len, at) == IsPublicKey(der, tag, len, at)
    ensures IsPublicKey(der, tag, len, at) ==> (der + more)[at + 2..at + 66] == der[at + 2..at + 66]
  {
  }

  /** What is found, once element `at` has been seen. */
  function Seen(der: Bytes, inner: (byte, nat, nat), found: Option<Bytes>): (r: Option<Bytes>)
    requires inner.2 + inner.1 <= |der| && (found.Some? ==> |found.value| == 64)
    ensures r.Some? ==> |r.value| == 64
  {
    if IsPublicKey(der, inner.0, inner.1, inner.2) then Some(der[inner.2 + 2..inner.2 + 66]) else found
  }

  lemma OneStep(der: Bytes, pos: nat, found: Option<Bytes>, element: (byte, nat, nat), inner: (byte, nat, nat))
    requires pos < |der| && (found.Some? ==> |found.value| == 64) && DerAt(der, pos) == Ok(element)
    requires element.0 == 0xA1 ==> DerAt(der, element.2) == Ok(inner)
    ensures PublicKeyAfter(der, pos, found) ==
      PublicKeyAfter(der, element.2 + element.1, if element.0 == 0xA1 then Seen(der, inner, found) else found)
  {
    hide DerAt;
  }

  lemma SameSeen(der: Bytes, more: Bytes, inner: (byte, nat, nat), found: Option<Bytes>)
    requires inner.2 + inner.1 <= |der| && (found.Some? ==> |found.value| == 64)
    ensures Seen(der + more, inner, found) == Seen(der, inner, found)
  {
    PublicKeyLonger(der, more, inner.0, inner.1, inner.2);
    hide IsPublicKey;
  }

  lemma ElementsRead(der: Bytes, pos: nat, found: Option<Bytes>) returns (element: (byte, nat, nat), inner: (byte, nat, nat))
    requires pos < |der| && (found.Some? ==> |found.value| == 64)
    requires PublicKeyAfter(der, pos, found).Ok?
    ensures DerAt(der, pos) == Ok(element) && pos < element.2 && element.2 + element.1 <= |der|
    ensures element.0 == 0xA1 ==> DerAt(der, element.2) == Ok(inner)
    ensures inner.2 + inner.1 <= |der|
  {
    hide DerAt, IsPublicKey;
    element := DerAt(der, pos).value;
    inner := if element.0 == 0xA1 then DerAt(der, element.2).value else element;
  }

  /** One element of a search, read alike whatever follows. */
  lemma OneElement(der: Bytes, more: Bytes, pos: nat, found: Option<Bytes>) returns (next: nat, now: Option<Bytes>)
    requires pos < |der| && (found.Some? ==> |found.value| == 64)
    requires PublicKeyAfter(der, pos, found).Ok?
    ensures pos < next <= |der| && (now.Some? ==> |now.value| == 64)
    ensures PublicKeyAfter(der, pos, found) == PublicKeyAfter(der, next, now)
    ensures PublicKeyAfter(der + more, pos, found) == PublicKeyAfter(der + more, next, now)
  {
    var element, inner := ElementsRead(der, pos, found);
    hide *;
    DerLonger(der, more, pos);
    if element.0 == 0xA1 {
      DerLonger(der, more, element.2);
    }
    SameSeen(der, more, inner, found);
    OneStep(der, pos, found, element, inner);
    OneStep(der + more, pos, found, element, inner);
    next, now := element.2 + element.1, if element.0 == 0xA1 then Seen(der, inner, found) else found;
  }

  /** Elements behind those already searched are searched on from what was found. */
  lemma {:induction false} SearchGoesOn(der: Bytes, more: Bytes, pos: nat, found: Option<Bytes>)
    requires pos <= |der| && (found.Some? ==> |found.value| == 64)
    requires PublicKeyAfter(der, pos, found).Ok?
    ensures PublicKeyAfter(der + more, pos, found) == PublicKeyAfter(der + more, |der|, PublicKeyAfter(der, pos, found).value)
    decreases |der| - pos
  {
    if pos < |der| {
      var next, now := OneElement(der, more, pos, found);
      hide *;
      SearchGoesOn(der, more, next, now);
    }
  }

  /** Of several public keys the last one counts, whatever the elements before it. */
  lemma LastKeyCounts(der: Bytes, pos: nat, point: Bytes)
    requires pos <= |der| && |point| == 64 && PublicKeyAfter(der, pos, None).Ok?
    ensures PublicKeyAfter(der + PublicKeyElement(point), pos, None) == Ok(Some(point))
  {
    var found := PublicKeyAfter(der, pos, None).value;
    SearchGoesOn(der, PublicKeyElement(point), pos, None);
    PublicKeyElementAt(der + PublicKeyElement(point), der, point);
    hide DerAt, IsPublicKey, PublicKeyElement;
  }

  /** An element that is no public key changes nothing, wherever the search stands. */
  lemma OthersDoNotCount(der: Bytes, pos: nat, tag: byte, content: Bytes)
    requires pos <= |der| && |content| < 0x80 && tag != 0xA1 && PublicKeyAfter(der, pos, None).Ok?
    ensures PublicKeyAfter(der + Der(tag, content), pos, None) == PublicKeyAfter(der, pos, None)
  {
    SearchGoesOn(der, Der(tag, content), pos, None);
    DerBehind(der + Der(tag, content), der, tag, content);
    hide DerAt, IsPublicKey;
  }

  /** A sequence that begins with a version and 32 bytes of scalar; its point is in an element behind them, or follows from the scalar. */
  predicate Sec1Holds(der: Bytes, derive: Bytes -> Option<Point>, key: KeyPair, whole: (nat, nat), version: (nat, nat), at: nat) {
    && ElementAt(der, 0, 0x30, whole.0, whole.1)
    && ElementAt(der, whole.1, 0x02, version.0, version.1)
    && ElementAt(der, version.1 + version.0, 0x04, 32, at)
    && key.scalar == der[at..at + 32]
    && var found := PublicKeyAfter(der, at + 32, None);
      found.Ok? && Some(key.point) == if found.value.Some? then found.value else derive(key.scalar)
  }

  /** The SEC1 reader yields a key exactly for the files that hold it. */
  lemma Sec1Iff(der: Bytes, derive: Bytes -> Option<Point>, key: KeyPair)
    ensures Sec1Key(der, derive) == Ok(key) <==>
      exists whole: (nat, nat), version: (nat, nat), at: nat :: Sec1Holds(der, derive, key, whole, version, at)
  {
    hide DerAt, ElementAt, PublicKeyAfter;
    if Sec1Key(der, derive) == Ok(key) {
      var (t1, l1, p1) := DerAt(der, 0).value;
      var (t2, l2, p2) := DerAt(der, p1).value;
      var (t3, l3, p3) := DerAt(der, p2 + l2).value;
      DerIff(der, 0, t1, l1, p1);
      DerIff(der, p1, t2, l2, p2);
      DerIff(der, p2 + l2, t3, l3, p3);
      assert Sec1Holds(der, derive, key, (l1, p1), (l2, p2), p3);
    }
    if whole: (nat, nat), version: (nat, nat), at: nat :| Sec1Holds(der, derive, key, whole, version, at) {
      DerIff(der, 0, 0x30, whole.0, whole.1);
      DerIff(der, whole.1, 0x02, version.0, version.1);
      DerIff(der, version.1 + version.0, 0x04, 32, at);
    }
  }
}
