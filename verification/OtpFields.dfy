/** Fixed-width text fields of key payloads (`keys_import.rs`, `ssh_import.rs`). */
module OtpFields {
  import opened Wire
  import opened KeyEntries

  // ---- UTF-8, section 3 of RFC 3629 ----

  type Scalar = c: int | 0 <= c < 0xD800 || 0xE000 <= c < 0x11_0000

  predicate Continuation(b: byte) {
    0x80 <= b < 0xC0
  }

  function EncodeChar(c: Scalar): (bs: Bytes)
    ensures 1 <= |bs| <= 4 && !Continuation(bs[0])
    ensures forall i :: 0 < i < |bs| ==> Continuation(bs[i])
    ensures 0 in bs <==> c == 0
  {
    if c < 0x80 then [c]
    else if c < 0x800 then [0xC0 + c / 64, 0x80 + c % 64]
    else if c < 0x1_0000 then [0xE0 + c / 4096, 0x80 + c / 64 % 64, 0x80 + c % 64]
    else [0xF0 + c / 26_2144, 0x80 + c / 4096 % 64, 0x80 + c / 64 % 64, 0x80 + c % 64]
  }

  function Utf8(cs: seq<Scalar>): (bs: Bytes)
    ensures |bs| >= |cs|
  {
    if cs == [] then [] else Utf8(cs[..|cs| - 1]) + EncodeChar(cs[|cs| - 1])
  }

  /** `str::is_char_boundary`. */
  predicate Boundary(s: Bytes, i: nat) {
    i == 0 || i == |s| || (i < |s| && !Continuation(s[i]))
  }

  lemma {:induction false} Utf8Prefix(cs: seq<Scalar>, j: nat)
    requires j <= |cs|
    ensures Utf8(cs[..j]) <= Utf8(cs)
    ensures Boundary(Utf8(cs), |Utf8(cs[..j])|)
    ensures j < |cs| ==> |Utf8(cs[..j])| < |Utf8(cs)|
  {
    if j == |cs| {
      assert cs[..j] == cs;
    } else {
      var init := cs[..|cs| - 1];
      assert init[..j] == cs[..j];
      Utf8Prefix(init, j);
    }
  }

  /** A boundary of the text is the end of one of its characters. */
  lemma {:induction false} BoundaryEndsACharacter(cs: seq<Scalar>, k: nat) returns (j: nat)
    requires k <= |Utf8(cs)| && Boundary(Utf8(cs), k)
    ensures j <= |cs| && k == |Utf8(cs[..j])|
  {
    if k == |Utf8(cs)| {
      j := |cs|;
      assert cs[..j] == cs;
    } else {
      var init := cs[..|cs| - 1];
      if k == |Utf8(init)| {
        j := |cs| - 1;
      } else if k < |Utf8(init)| {
        j := BoundaryEndsACharacter(init, k);
        assert init[..j] == cs[..j];
      } else {
        assert false;
      }
    }
  }

  // ---- Truncation ----

  /** The last boundary at or before `cut`. */
  function LastBoundary(s: Bytes, cut: nat): (k: nat)
    ensures k <= cut && Boundary(s, k)
    ensures forall i :: k < i <= cut ==> !Boundary(s, i)
  {
    if cut == 0 || Boundary(s, cut) then cut else LastBoundary(s, cut - 1)
  }

  function Truncated(s: Bytes, max: nat): (t: Bytes)
    ensures t <= s && |t| <= max
  {
    if |s| <= max then s else s[..LastBoundary(s, max)]
  }

  method TruncateUtf8(s: Bytes, max: nat) returns (t: Bytes)
    ensures t == Truncated(s, max)
  {
    if |s| <= max {
      return s;
    }
    var cut: nat := max;
    while cut > 0 && !Boundary(s, cut)
      invariant 0 <= cut <= max && LastBoundary(s, cut) == LastBoundary(s, max)
    {
      cut := cut - 1;
    }
    return s[..cut];
  }

  /** `bytes` spells the first `j` characters of `cs`, which fit `max` bytes; one more does not. */
  ghost predicate KeepsCharacters(cs: seq<Scalar>, max: nat, bytes: Bytes, j: nat) {
    && j <= |cs| && bytes == Utf8(cs[..j]) && |bytes| <= max
    && (j < |cs| ==> |Utf8(cs[..j + 1])| > max)
  }

  /** Truncation keeps as many whole characters as fit, and nothing of the next one. */
  lemma TruncationKeepsWholeCharacters(cs: seq<Scalar>, max: nat) returns (j: nat)
    ensures KeepsCharacters(cs, max, Truncated(Utf8(cs), max), j)
  {
    var s := Utf8(cs);
    if |s| <= max {
      j := |cs|;
      assert cs[..j] == cs;
    } else {
      j := BoundaryEndsACharacter(cs, LastBoundary(s, max));
      Utf8Prefix(cs, j);
      if j < |cs| {
        Utf8Prefix(cs, j + 1);
        assert cs[..j + 1][..j] == cs[..j];
        Utf8Prefix(cs[..j + 1], j);
      }
    }
  }

  // ---- Padded fields ----

  /** A NUL-filled field that always keeps its last byte for a terminator. */
  function Field(text: Bytes, len: nat): (f: Bytes)
    requires len > 0
    ensures |f| == len
  {
    var t := Truncated(text, len - 1);
    t + Fill(0 as byte, len - |t|)
  }

  method PadField(text: Bytes, len: nat) returns (f: Bytes)
    requires len > 0
    ensures f == Field(text, len)
  {
    var buffer := new byte[len](_ => 0);
    var t := TruncateUtf8(text, len - 1);
    forall i | 0 <= i < |t| {
      buffer[i] := t[i];
    }
    f := buffer[..];
  }

  lemma {:induction false} UntilNulOf(t: Bytes, rest: Bytes)
    requires 0 !in t
    ensures UntilNul(t + [0] + rest) == t
  {
    if t == [] {
      assert (t + [0] + rest)[0] == 0;
    } else {
      var all := t + [0] + rest;
      assert all[0] == t[0] && t[0] in t;
      assert all[1..] == t[1..] + [0] + rest;
      UntilNulOf(t[1..], rest);
    }
  }

  /** A field reads back as the text kept in it exactly when that text has no NUL. */
  lemma FieldReadsBack(text: Bytes, len: nat)
    requires len > 0
    ensures UntilNul(Field(text, len)) == Truncated(text, len - 1) <==> 0 !in Truncated(text, len - 1)
  {
    var t := Truncated(text, len - 1);
    if 0 !in t {
      assert Field(text, len) == t + [0] + Fill(0 as byte, len - |t| - 1);
      UntilNulOf(t, Fill(0 as byte, len - |t| - 1));
    }
  }

  lemma {:induction false} NulFree(cs: seq<Scalar>)
    ensures 0 in Utf8(cs) <==> 0 in cs
  {
    if cs != [] {
      var init, c := cs[..|cs| - 1], cs[|cs| - 1];
      assert cs == init + [c];
      NulFree(init);
    }
  }

  // ---- Payloads ----

  method BuildOtpEntryPayload(name: Bytes, service: Bytes, secret: Bytes) returns (p: Bytes)
    ensures p == OtpPayload(name, service, secret)
  {
    p := PadField(name, NAME_LEN_OTP);
    var field := PadField(service, SERVICE_LEN_OTP);
    p := p + field;
    p := p + secret;
  }

  function OtpPayload(name: Bytes, service: Bytes, secret: Bytes): Bytes {
    Field(name, NAME_LEN_OTP) + Field(service, SERVICE_LEN_OTP) + secret
  }

  function ApiPayload(name: Bytes, value: Bytes): Bytes {
    Field(name, NAME_LEN_API) + value
  }

  /** The longest run of whole characters of `cs` that fits `max` bytes. */
  ghost predicate LongestPrefix(cs: seq<Scalar>, max: nat, bytes: Bytes) {
    exists j: nat :: KeepsCharacters(cs, max, bytes, j)
  }

  lemma FieldHoldsLongestPrefix(cs: seq<Scalar>, len: nat)
    requires len > 0 && 0 !in cs
    ensures LongestPrefix(cs, len - 1, UntilNul(Field(Utf8(cs), len)))
  {
    var j := TruncationKeepsWholeCharacters(cs, len - 1);
    assert 0 !in cs[..j];
    assert KeepsCharacters(cs, len - 1, Truncated(Utf8(cs), len - 1), j) ==> LongestPrefix(cs, len - 1, Truncated(Utf8(cs), len - 1));
    assert KeepsCharacters(cs, len - 1, Truncated(Utf8(cs), len - 1), j) && Truncated(Utf8(cs), len - 1) == Utf8(cs[..j]);
    hide *;
    NulFree(cs[..j]);
    FieldReadsBack(Utf8(cs), len);
  }

  /**
   * What the key mirror shows of an imported OTP entry: name and service are the longest prefixes
   * of whole characters within 29 bytes, and the secret starts at byte 60 where the firmware reads
   * it.
   */
  lemma OtpEntryReadsBack(name: seq<Scalar>, service: seq<Scalar>, secret: Bytes, index: nat)
    requires 0 !in name && 0 !in service
    ensures
      var p := OtpPayload(Utf8(name), Utf8(service), secret);
      var entry := ReadNameEntry(Otp, index, p);
      && |p| == 60 + |secret| && p[60..] == secret
      && entry.Some? && entry.value.index == index && entry.value.category == Otp
      && LongestPrefix(name, 29, entry.value.name)
      && LongestPrefix(service, 29, entry.value.service)
  {
    hide Utf8, Field, UntilNul, LongestPrefix;
    var n, s := Field(Utf8(name), NAME_LEN_OTP), Field(Utf8(service), SERVICE_LEN_OTP);
    var p := OtpPayload(Utf8(name), Utf8(service), secret);
    assert p[..30] == n && p[30..60] == s;
    FieldHoldsLongestPrefix(name, NAME_LEN_OTP);
    FieldHoldsLongestPrefix(service, SERVICE_LEN_OTP);
  }

  lemma ApiEntryReadsBack(name: seq<Scalar>, value: Bytes, index: nat)
    requires 0 !in name
    ensures
      var p := ApiPayload(Utf8(name), value);
      var entry := ReadNameEntry(Api, index, p);
      && p[32..] == value
      && entry.Some? && entry.value.service == []
      && LongestPrefix(name, 31, entry.value.name)
  {
    var p := ApiPayload(Utf8(name), value);
    assert p[..32] == Field(Utf8(name), NAME_LEN_API);
    FieldHoldsLongestPrefix(name, NAME_LEN_API);
  }
}
