/** Base32 secrets of an `otpauth` URI (`keys_import.rs`, section 6 of RFC 4648). */
module Base32 {
  import opened Wire

  // ---- Bit streams: what a run of fixed-width groups spells, most significant bit first ----

  function Pow2(n: nat): (p: nat)
    ensures p > 0
  {
    if n == 0 then 1 else 2 * Pow2(n - 1)
  }

  /** The low `n` bits of `x`. */
  function BitsOf(x: nat, n: nat): (bs: seq<bool>)
    ensures |bs| == n
  {
    if n == 0 then [] else BitsOf(x / 2, n - 1) + [x % 2 == 1]
  }

  function Stream(vs: seq<nat>, width: nat): seq<bool> {
    if vs == [] then [] else Stream(vs[..|vs| - 1], width) + BitsOf(vs[|vs| - 1], width)
  }

  lemma {:induction false} StreamLength(vs: seq<nat>, width: nat)
    ensures |Stream(vs, width)| == width * |vs|
  {
    if vs != [] {
      StreamLength(vs[..|vs| - 1], width);
      assert width * |vs| == width * (|vs| - 1) + width;
    }
  }

  lemma StreamSnoc(vs: seq<nat>, v: nat, width: nat)
    ensures Stream(vs + [v], width) == Stream(vs, width) + BitsOf(v, width)
  {
    assert (vs + [v])[..|vs|] == vs;
  }

  lemma {:induction false} StreamConcat(a: seq<nat>, b: seq<nat>, width: nat)
    ensures Stream(a + b, width) == Stream(a, width) + Stream(b, width)
  {
    if b == [] {
      assert a + b == a;
    } else {
      var init, v := b[..|b| - 1], b[|b| - 1];
      StreamConcat(a, init, width);
      StreamSnoc(a + init, v, width);
      StreamSnoc(init, v, width);
      assert b == init + [v];
      Associate(a, init, [v]);
      Associate(Stream(a, width), Stream(init, width), BitsOf(v, width));
    }
  }

  lemma {:induction false} BitsInjective(x: nat, y: nat, n: nat)
    requires x < Pow2(n) && y < Pow2(n) && BitsOf(x, n) == BitsOf(y, n)
    ensures x == y
  {
    if n > 0 {
      var a, b := BitsOf(x, n), BitsOf(y, n);
      assert a[..n - 1] == BitsOf(x / 2, n - 1) && b[..n - 1] == BitsOf(y / 2, n - 1);
      assert a[n - 1] == b[n - 1];
      BitsInjective(x / 2, y / 2, n - 1);
    }
  }

  /** Appending `m` bits of `v` to the number `x`. */
  lemma {:induction false} BitsAppend(x: nat, n: nat, v: nat, m: nat)
    requires v < Pow2(m)
    ensures BitsOf(x * Pow2(m) + v, n + m) == BitsOf(x, n) + BitsOf(v, m)
  {
    if m > 0 {
      HalfOfSum(x, Pow2(m - 1), v);
      BitsAppend(x, n, v / 2, m - 1);
      Associate(BitsOf(x, n), BitsOf(v / 2, m - 1), [v % 2 == 1]);
    }
  }

  lemma HalfOfSum(x: nat, p: nat, v: nat)
    ensures (x * (2 * p) + v) / 2 == x * p + v / 2 && (x * (2 * p) + v) % 2 == v % 2
  {
    assert x * (2 * p) == 2 * (x * p);
  }

  lemma HalfMod(x: nat, p: nat)
    requires p > 0
    ensures x % (2 * p) / 2 == x / 2 % p && x % (2 * p) % 2 == x % 2
  {
    var q, r := x / 2 / p, x / 2 % p;
    assert x == 2 * p * q + (2 * r + x % 2);
    assert 0 <= 2 * r + x % 2 < 2 * p;
    ModUnique(x, 2 * p, q, 2 * r + x % 2);
  }

  lemma MulGap(d: nat, a: nat, b: nat)
    requires a < b
    ensures d * a + d <= d * b
  {
    assert d * b == d * a + d * (b - a);
    assert d * (b - a) == d + d * (b - a - 1);
  }

  lemma ModUnique(x: nat, d: nat, q: nat, r: nat)
    requires d > 0 && x == d * q + r && r < d
    ensures x % d == r && x / d == q
  {
    var q', r' := x / d, x % d;
    assert x == d * q' + r';
    if q' < q {
      MulGap(d, q', q);
      assert false;
    } else if q' > q {
      MulGap(d, q, q');
      assert false;
    }
  }

  lemma DivMod(x: nat, d: nat) returns (q: nat, r: nat)
    requires d > 0
    ensures x == q * d + r && r < d && q == x / d && r == x % d
  {
    q, r := x / d, x % d;
  }

  /** Bits above the ones kept do not matter: a register that drops them loses nothing. */
  lemma {:induction false} BitsOfTruncated(x: nat, n: nat, m: nat)
    requires n <= m
    ensures BitsOf(x % Pow2(m), n) == BitsOf(x, n)
  {
    if n > 0 {
      HalfMod(x, Pow2(m - 1));
      BitsOfTruncated(x / 2, n - 1, m - 1);
    }
  }

  lemma BitsSplit(x: nat, k: nat, m: nat)
    ensures BitsOf(x, k + m) == BitsOf(x / Pow2(m) % Pow2(k), k) + BitsOf(x, m)
  {
    var q, r := DivMod(x, Pow2(m));
    assert BitsOf(x, k + m) == BitsOf(q, k) + BitsOf(r, m) by { BitsAppend(q, k, r, m); }
    assert BitsOf(r, m) == BitsOf(x, m) by { BitsOfTruncated(x, m, m); }
    assert BitsOf(q % Pow2(k), k) == BitsOf(q, k) by { BitsOfTruncated(q, k, k); }
  }

  // ---- The decoder ----

  predicate Kept(c: char) {
    !IsSpace(c) && c != '='
  }

  function Upper(c: char): char {
    if 'a' <= c <= 'z' then c - 'a' + 'A' else c
  }

  function Cleaned(s: string): string {
    Map(Filter(s, Kept), Upper)
  }

  function SymbolValue(c: char): (v: Option<nat>)
    ensures v.Some? ==> v.value < 32
  {
    if 'A' <= c <= 'Z' then Some((c - 'A') as int)
    else if '2' <= c <= '7' then Some((c - '2') as int + 26)
    else None
  }

  predicate AllSymbols(cs: string) {
    forall i :: 0 <= i < |cs| ==> SymbolValue(cs[i]).Some?
  }

  function Values(cs: string): (vs: seq<nat>)
    requires AllSymbols(cs)
    ensures |vs| == |cs| && forall i :: 0 <= i < |vs| ==> vs[i] < 32
  {
    seq(|cs|, i requires 0 <= i < |cs| => SymbolValue(cs[i]).value)
  }

  /** `(bits << 5) | v` in a `u32`: the five bits shifted out at the top are gone. */
  function ShiftIn(bits: nat, v: nat): nat {
    bits * 32 % U32_SIZE + v
  }

  /** `((bits >> nbits) & 0xFF) as u8`. */
  function LowByte(bits: nat, nbits: nat): byte {
    bits / Pow2(nbits) % 256
  }

  /** The RFC's reading of `n` symbols: the first `floor(5n/8)` whole bytes of their bit stream. */
  ghost predicate Decodes(s: string, r: Option<Bytes>) {
    var cs := Cleaned(s);
    if AllSymbols(cs) then
      && r.Some?
      && |r.value| == 5 * |cs| / 8
      && Stream(r.value, 8) <= Stream(Values(cs), 5)
    else r.None?
  }

  /**
   * The accumulator is a `u32` whose left shift drops its top five bits. At most seven bits are
   * pending before a shift, so none of those it drops are still needed.
   */
  method Decode(s: string) returns (r: Option<Bytes>)
    ensures Decodes(s, r)
  {
    var cleaned := Cleaned(s);
    var out: Bytes := [];
    var bits: nat, nbits: nat := 0, 0;
    assert Absorbed(out, bits, nbits, cleaned, 0);
    hide Stream, BitsOf, ShiftIn, LowByte, Absorbed;
    for i := 0 to |cleaned|
      invariant nbits < 8
      invariant Absorbed(out, bits, nbits, cleaned, i)
    {
      var symbol := SymbolValue(cleaned[i]);
      if symbol.None? {
        return None;
      }
      AbsorbSymbol(out, bits, nbits, cleaned, i);
      bits := ShiftIn(bits, symbol.value);
      nbits := nbits + 5;
      if nbits >= 8 {
        nbits := nbits - 8;
        out := out + [LowByte(bits, nbits)];
      }
    }
    AllAbsorbed(out, bits, nbits, cleaned);
    return Some(out);
  }

  /** The bytes put out and the bits still pending spell exactly the first `i` symbols. */
  ghost predicate Absorbed(out: Bytes, bits: nat, nbits: nat, cs: string, i: nat)
    requires i <= |cs|
  {
    && bits < U32_SIZE
    && AllSymbols(cs[..i])
    && Stream(out, 8) + BitsOf(bits, nbits) == Stream(Values(cs[..i]), 5)
  }

  lemma AllAbsorbed(out: Bytes, bits: nat, nbits: nat, cs: string)
    requires nbits < 8 && Absorbed(out, bits, nbits, cs, |cs|)
    ensures AllSymbols(cs) && |out| == 5 * |cs| / 8 && Stream(out, 8) <= Stream(Values(cs), 5)
  {
    assert cs[..|cs|] == cs;
    StreamLength(out, 8);
    StreamLength(Values(cs), 5);
  }

  lemma AbsorbSymbol(out: Bytes, bits: nat, nbits: nat, cs: string, i: nat)
    requires i < |cs| && SymbolValue(cs[i]).Some? && nbits < 8
    requires Absorbed(out, bits, nbits, cs, i)
    ensures
      var bits' := ShiftIn(bits, SymbolValue(cs[i]).value);
      if nbits + 5 < 8 then Absorbed(out, bits', nbits + 5, cs, i + 1)
      else Absorbed(out + [LowByte(bits', nbits - 3)], bits', nbits - 3, cs, i + 1)
  {
    var v := SymbolValue(cs[i]).value;
    assert cs[..i + 1] == cs[..i] + [cs[i]];
    assert Values(cs[..i + 1]) == Values(cs[..i]) + [v];
    hide Stream, BitsOf;
    StreamSnoc(Values(cs[..i]), v, 5);
    ShiftedBits(bits, nbits, v);
    Associate(Stream(out, 8), BitsOf(bits, nbits), BitsOf(v, 5));
    if nbits + 5 >= 8 {
      EmitByte(out, ShiftIn(bits, v), nbits - 3, cs, i + 1);
    }
  }

  lemma EmitByte(out: Bytes, bits: nat, rest: nat, cs: string, i: nat)
    requires i <= |cs| && Absorbed(out, bits, 8 + rest, cs, i)
    ensures Absorbed(out + [LowByte(bits, rest)], bits, rest, cs, i)
  {
    var next := LowByte(bits, rest);
    ByteSplits(bits, rest);
    hide Stream, BitsOf, LowByte, AllSymbols, Values;
    StreamSnoc(out, next, 8);
    Associate(Stream(out, 8), BitsOf(next, 8), BitsOf(bits, rest));
  }

  lemma ByteSplits(bits: nat, rest: nat)
    ensures BitsOf(bits, 8 + rest) == BitsOf(LowByte(bits, rest), 8) + BitsOf(bits, rest)
  {
    assert Pow2(8) == 256;
    hide BitsOf, Pow2;
    BitsSplit(bits, 8, rest);
  }

  lemma Powers()
    ensures Pow2(5) == 32 && Pow2(27) == U32_SIZE / 32
  {
    assert Pow2(8) == 256;
    assert Pow2(16) == 0x1_0000;
    assert Pow2(24) == 0x100_0000;
  }

  /** The shift drops the accumulator's top five bits. */
  lemma ShiftDropsTop(bits: nat, v: nat)
    requires v < 32
    ensures ShiftIn(bits, v) == bits % (U32_SIZE / 32) * 32 + v < U32_SIZE
  {
    ModUnique(bits * 32, U32_SIZE, bits / (U32_SIZE / 32), bits % (U32_SIZE / 32) * 32);
  }

  lemma ShiftedBits(bits: nat, nbits: nat, v: nat)
    requires nbits < 8 && v < 32
    ensures ShiftIn(bits, v) < U32_SIZE
    ensures BitsOf(ShiftIn(bits, v), nbits + 5) == BitsOf(bits, nbits) + BitsOf(v, 5)
  {
    hide *;
    Powers();
    ShiftDropsTop(bits, v);
    BitsAppend(bits % (U32_SIZE / 32), nbits, v, 5);
    BitsOfTruncated(bits, nbits, 27);
  }

  // ---- What the decoder is for ----

  /** A stream of eight-bit digits comes apart into its front and its last digit. */
  lemma StreamLast(a: Bytes)
    requires a != []
    ensures |Stream(a, 8)| == 8 * |a|
    ensures Stream(a, 8)[..8 * (|a| - 1)] == Stream(a[..|a| - 1], 8)
    ensures Stream(a, 8)[8 * (|a| - 1)..] == BitsOf(a[|a| - 1], 8)
  {
    StreamLength(a, 8);
    StreamLength(a[..|a| - 1], 8);
    hide BitsOf;
  }

  lemma {:induction false} StreamInjective(a: Bytes, b: Bytes)
    requires |a| == |b| && Stream(a, 8) == Stream(b, 8)
    ensures a == b
  {
    if a != [] {
      var n := |a| - 1;
      assert Pow2(8) == 256;
      hide Stream, BitsOf, Pow2;
      StreamLast(a);
      StreamLast(b);
      BitsInjective(a[n], b[n], 8);
      StreamInjective(a[..n], b[..n]);
      assert a == a[..n] + [a[n]] && b == b[..n] + [b[n]];
    }
  }

  /** The specification leaves the decoder no freedom, and only the cleaned text matters to it. */
  lemma DecodingIsUnique(s: string, t: string, r: Option<Bytes>, q: Option<Bytes>)
    requires Cleaned(s) == Cleaned(t) && Decodes(s, r) && Decodes(t, q)
    ensures r == q
  {
    if r.Some? {
      StreamLength(r.value, 8);
      StreamLength(q.value, 8);
      StreamInjective(r.value, q.value);
    }
  }

  lemma CleanedConcat(a: string, b: string)
    ensures Cleaned(a + b) == Cleaned(a) + Cleaned(b)
  {
    FilterConcat(a, b, Kept);
  }

  lemma CleanedOne(c: char)
    ensures Cleaned([c]) == if Kept(c) then [Upper(c)] else []
  {
    assert Filter([c][..0], Kept) == [];
  }

  /** Padding and white space may stand anywhere. */
  lemma SkippedCharactersVanish(a: string, c: char, b: string)
    requires IsSpace(c) || c == '='
    ensures Cleaned(a + [c] + b) == Cleaned(a + b)
  {
    CleanedConcat(a + [c], b);
    CleanedConcat(a, [c]);
    CleanedConcat(a, b);
    CleanedOne(c);
  }

  lemma UpperKeepsKind(c: char)
    ensures Kept(Upper(c)) == Kept(c) && Upper(Upper(c)) == Upper(c)
  {
  }

  /** A letter may be written in either case. */
  lemma CaseVanishes(a: string, c: char, b: string)
    requires 'a' <= c <= 'z'
    ensures Cleaned(a + [c - 'a' + 'A'] + b) == Cleaned(a + [c] + b)
  {
    var upper := c - 'a' + 'A';
    OneLetter(c);
    hide Cleaned;
    CleanedConcat(a + [c], b);
    CleanedConcat(a, [c]);
    CleanedConcat(a + [upper], b);
    CleanedConcat(a, [upper]);
  }

  lemma OneLetter(c: char)
    requires 'a' <= c <= 'z'
    ensures Cleaned([c - 'a' + 'A']) == Cleaned([c])
  {
    CleanedOne(c);
    CleanedOne(c - 'a' + 'A');
    hide Cleaned;
  }

  const ALPHABET: string := "ABCDEFGHIJKLMNOPQRSTUVWXYZ234567"

  lemma LettersFirst(v: nat)
    requires v < 26
    ensures ALPHABET[v] == 'A' + v as char
  {
    assert ALPHABET[..26] == seq(26, i requires 0 <= i < 26 => 'A' + i as char);
    assert ALPHABET[v] == ALPHABET[..26][v];
  }

  lemma DigitsLast(v: nat)
    requires 26 <= v < 32
    ensures ALPHABET[v] == '2' + (v - 26) as char
  {
    assert ALPHABET[26..] == seq(6, i requires 0 <= i < 6 => '2' + i as char);
    assert ALPHABET[v] == ALPHABET[26..][v - 26];
  }

  /** Symbol `v` of the RFC's alphabet stands for `v`, and no other character for anything. */
  lemma AlphabetRead(c: char, v: nat)
    ensures |ALPHABET| == 32 && (SymbolValue(c) == Some(v) <==> v < 32 && ALPHABET[v] == c)
  {
    if v < 26 {
      LettersFirst(v);
    } else if v < 32 {
      DigitsLast(v);
    }
    assert |ALPHABET| == 32;
    hide ALPHABET;
  }

  // The reference encoder of section 6 of RFC 4648.

  function Number(bs: seq<bool>): (v: nat)
    ensures v < Pow2(|bs|)
  {
    if bs == [] then 0 else 2 * Number(bs[..|bs| - 1]) + if bs[|bs| - 1] then 1 else 0
  }

  lemma {:induction false} NumberBits(bs: seq<bool>)
    ensures BitsOf(Number(bs), |bs|) == bs
  {
    if bs != [] {
      NumberBits(bs[..|bs| - 1]);
    }
  }

  /** Five-bit groups of a bit stream, the last one filled with zero bits. */
  function Groups(bs: seq<bool>): (vs: seq<nat>)
    ensures forall i :: 0 <= i < |vs| ==> vs[i] < 32
    ensures 5 * |vs| < |bs| + 5 && |bs| <= 5 * |vs|
  {
    assert Pow2(5) == 32;
    if bs == [] then []
    else if |bs| < 5 then [Number(bs + Fill(false, 5 - |bs|))]
    else [Number(bs[..5])] + Groups(bs[5..])
  }

  lemma OneGroup(first: seq<bool>)
    requires |first| == 5
    ensures Stream([Number(first)], 5) == first
  {
    NumberBits(first);
    assert Stream([Number(first)][..0], 5) == [];
    hide Number, BitsOf;
  }

  lemma {:induction false} GroupsSpellTheBits(bs: seq<bool>)
    ensures bs <= Stream(Groups(bs), 5)
  {
    if bs == [] {
    } else if |bs| < 5 {
      var first := bs + Fill(false, 5 - |bs|);
      assert Groups(bs) == [Number(first)];
      hide *;
      OneGroup(first);
    } else {
      var first, rest := bs[..5], Groups(bs[5..]);
      assert Groups(bs) == [Number(first)] + rest && bs == first + bs[5..];
      hide *;
      OneGroup(first);
      StreamConcat([Number(first)], rest, 5);
      GroupsSpellTheBits(bs[5..]);
      PrefixGrows(first, bs[5..], Stream(rest, 5));
    }
  }

  function Symbol(v: nat): (c: char)
    requires v < 32
    ensures SymbolValue(c) == Some(v) && Kept(c) && Upper(c) == c
  {
    if v < 26 then 'A' + v as char else '2' + (v - 26) as char
  }

  function Letters(data: Bytes): (cs: string) {
    var vs := Groups(Stream(data, 8));
    seq(|vs|, i requires 0 <= i < |vs| => Symbol(vs[i]))
  }

  function Encode(data: Bytes): string {
    var cs := Letters(data);
    cs + Padding((8 - |cs| % 8) % 8)
  }

  function Padding(n: nat): (p: string)
    ensures |p| == n
  {
    if n == 0 then [] else Padding(n - 1) + ['=']
  }

  lemma {:induction false} LettersAreClean(cs: string)
    requires forall i :: 0 <= i < |cs| ==> Kept(cs[i]) && Upper(cs[i]) == cs[i]
    ensures Cleaned(cs) == cs
  {
    if cs == [] {
      assert Filter(cs, Kept) == [];
    } else {
      var init, c := cs[..|cs| - 1], cs[|cs| - 1];
      assert cs == init + [c];
      LettersAreClean(init);
      CleanedConcat(init, [c]);
      CleanedOne(c);
    }
  }

  lemma {:induction false} PaddingVanishes(cs: string, n: nat)
    ensures Cleaned(cs + Padding(n)) == Cleaned(cs)
  {
    if n == 0 {
      assert cs + Padding(0) == cs;
    } else {
      Associate(cs, Padding(n - 1), ['=']);
      CleanedConcat(cs + Padding(n - 1), ['=']);
      CleanedOne('=');
      PaddingVanishes(cs, n - 1);
    }
  }

  lemma EncodedTextIsClean(data: Bytes)
    ensures Cleaned(Letters(data)) == Letters(data) && Cleaned(Encode(data)) == Letters(data)
  {
    var cs := Letters(data);
    LettersAreClean(cs);
    assert Encode(data) == cs + Padding((8 - |cs| % 8) % 8);
    PaddingVanishes(cs, (8 - |cs| % 8) % 8);
  }

  /** However an encoded secret is spaced, cased or padded, decoding returns the secret. */
  lemma DecodeInvertsEncode(data: Bytes, s: string, r: Option<Bytes>)
    requires Cleaned(s) == Letters(data) || s == Encode(data)
    requires Decodes(s, r)
    ensures r == Some(data)
  {
    var cs := Letters(data);
    EncodedTextIsClean(data);
    var bits := Stream(data, 8);
    GroupsSpellTheBits(bits);
    assert Values(cs) == Groups(bits);
    StreamLength(data, 8);
    StreamLength(r.value, 8);
    assert |r.value| == |data|;
    StreamInjective(r.value, data);
  }
}
