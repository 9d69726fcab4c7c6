/** Bytes, results and the integer encodings every wire format of the daemon shares. */
module Wire {
  type byte = x: int | 0 <= x < 256
  type Bytes = seq<byte>

  datatype Option<+T> = None | Some(value: T)

  datatype Result<+T, +E> = Ok(value: T) | Err(error: E) {
    predicate IsFailure() {
      Err?
    }

    function PropagateFailure<U>(): Result<U, E>
      requires Err?
    {
      Err(error)
    }

    function Extract(): T
      requires Ok?
    {
      value
    }
  }

  const U32_SIZE := 0x1_0000_0000

  /** Unsigned big-endian value of a byte string. */
  function BigEndian(bs: Bytes): nat {
    if bs == [] then 0 else 256 * BigEndian(bs[..|bs| - 1]) + bs[|bs| - 1]
  }

  /** Unsigned little-endian value of a byte string. */
  function LittleEndian(bs: Bytes): nat {
    if bs == [] then 0 else bs[0] + 256 * LittleEndian(bs[1..])
  }

  function Reverse<T>(s: seq<T>): (r: seq<T>)
    ensures |r| == |s|
    ensures forall i :: 0 <= i < |s| ==> r[i] == s[|s| - 1 - i]
  {
    seq(|s|, i requires 0 <= i < |s| => s[|s| - 1 - i])
  }

  /** Reversing the bytes of a number changes its byte order, not its value. */
  lemma {:induction false} ReversedValue(bs: Bytes)
    ensures BigEndian(Reverse(bs)) == LittleEndian(bs)
  {
    if bs != [] {
      var r := Reverse(bs);
      assert r[..|r| - 1] == Reverse(bs[1..]);
      ReversedValue(bs[1..]);
    }
  }

  lemma ReverseTwice<T>(s: seq<T>)
    ensures Reverse(Reverse(s)) == s
  {
  }

  /** `u32::to_be_bytes`, after the `as u32` cast that drops the high bits. */
  function U32(n: nat): (bs: Bytes)
    ensures |bs| == 4
  {
    var v := n % U32_SIZE;
    var high := v / 256;
    var higher := high / 256;
    [higher / 256, higher % 256, high % 256, v % 256]
  }

  /** `u32::from_be_bytes` on four bytes. */
  function FromU32(a: byte, b: byte, c: byte, d: byte): (n: nat)
    ensures n < U32_SIZE
  {
    a * 0x100_0000 + b * 0x1_0000 + c * 256 + d
  }

  lemma U32RoundTrip(n: nat)
    ensures var bs := U32(n); FromU32(bs[0], bs[1], bs[2], bs[3]) == n % U32_SIZE
  {
    var v := n % U32_SIZE;
    var high := v / 256;
    var higher := high / 256;
    assert v == 256 * high + v % 256;
    assert high == 256 * higher + high % 256;
    assert higher == 256 * (higher / 256) + higher % 256;
    BytesAddUp(v, high, higher, higher / 256, v % 256, high % 256, higher % 256);
  }

  /** Both read and written, the high byte comes first; the device's numbers have the low byte first. */
  lemma ByteOrder(a: byte, b: byte, c: byte, d: byte)
    ensures FromU32(a, b, c, d) == BigEndian([a, b, c, d]) == LittleEndian([d, c, b, a])
    ensures U32(0x0102_0304) == [1, 2, 3, 4] && BigEndian([1, 2]) == 0x0102 && LittleEndian([1, 2]) == 0x0201
  {
    var s := [a, b, c, d];
    assert s[..3] == [a, b, c] && s[..3][..2] == [a, b] && [a, b][..1] == [a];
    assert BigEndian([a]) == a && BigEndian([a, b]) == 256 * a + b && BigEndian([a, b, c]) == 256 * (256 * a + b) + c;
    assert [d, c, b, a][1..] == [c, b, a] && [c, b, a][1..] == [b, a] && [b, a][1..] == [a];
    assert LittleEndian([a]) == a && LittleEndian([b, a]) == b + 256 * a && LittleEndian([c, b, a]) == c + 256 * (b + 256 * a);
  }

  lemma BytesAddUp(v: nat, high: nat, higher: nat, a: byte, d: byte, c: byte, b: byte)
    requires v == 256 * high + d && high == 256 * higher + c && higher == 256 * a + b
    ensures FromU32(a, b, c, d) == v
  {
  }

  /** Unicode white space, as `char::is_whitespace` has it. */
  predicate IsSpace(c: char) {
    || '\t' <= c <= '\r' || c == ' ' || c == '\U{85}' || c == '\U{A0}' || c == '\U{1680}' || '\U{2000}' <= c <= '\U{200A}'
    || c == '\U{2028}' || c == '\U{2029}' || c == '\U{202F}' || c == '\U{205F}' || c == '\U{3000}'
  }

  function TrimStart(s: string): string {
    if s != [] && IsSpace(s[0]) then TrimStart(s[1..]) else s
  }

  function TrimEnd(s: string): string {
    if s != [] && IsSpace(s[|s| - 1]) then TrimEnd(s[..|s| - 1]) else s
  }

  /** `str::trim`. */
  function Trim(s: string): string {
    TrimEnd(TrimStart(s))
  }

  predicate AllSpace(s: string) {
    forall i :: 0 <= i < |s| ==> IsSpace(s[i])
  }

  /** Trimming takes away the white space at both ends, and nothing else. */
  lemma TrimMeans(s: string) returns (before: string, after: string)
    ensures s == before + Trim(s) + after && AllSpace(before) && AllSpace(after)
    ensures Trim(s) != [] ==> !IsSpace(Trim(s)[0]) && !IsSpace(Trim(s)[|Trim(s)| - 1])
  {
    before := TrimStartMeans(s);
    after := TrimEndMeans(TrimStart(s));
    assert Trim(s) != [] ==> Trim(s)[0] == TrimStart(s)[0];
  }

  lemma {:induction false} TrimStartMeans(s: string) returns (before: string)
    ensures s == before + TrimStart(s) && AllSpace(before) && (TrimStart(s) != [] ==> !IsSpace(TrimStart(s)[0]))
  {
    before := [];
    if s != [] && IsSpace(s[0]) {
      var rest := TrimStartMeans(s[1..]);
      before := [s[0]] + rest;
    }
  }

  lemma {:induction false} TrimEndMeans(s: string) returns (after: string)
    ensures var t := TrimEnd(s); s == t + after && AllSpace(after) && (t != [] ==> !IsSpace(t[|t| - 1]))
  {
    after := [];
    if s != [] && IsSpace(s[|s| - 1]) {
      var rest := TrimEndMeans(s[..|s| - 1]);
      after := rest + [s[|s| - 1]];
    }
  }

  /** `iter().take_while(|b| b != 0)`: a fixed-width field up to its first NUL. */
  function UntilNul(bs: Bytes): (r: Bytes)
    ensures |r| <= |bs| && r == bs[..|r|] && 0 !in r
    ensures |r| < |bs| ==> bs[|r|] == 0
  {
    if bs == [] || bs[0] == 0 then [] else [bs[0]] + UntilNul(bs[1..])
  }

  /** `filter`: the elements that satisfy `p`, in order. */
  function Filter<T>(s: seq<T>, p: T -> bool): (r: seq<T>)
    ensures forall x | x in r :: x in s && p(x)
    ensures forall x | x in s && p(x) :: x in r
  {
    if s == [] then []
    else
      var rest := Filter(s[..|s| - 1], p);
      var x := s[|s| - 1];
      assert s == s[..|s| - 1] + [x];
      if p(x) then rest + [x] else rest
  }

  lemma {:induction false} FilterConcat<T>(s: seq<T>, t: seq<T>, p: T -> bool)
    ensures Filter(s + t, p) == Filter(s, p) + Filter(t, p)
  {
    if t == [] {
      assert s + t == s;
    } else {
      var n := |t| - 1;
      assert (s + t)[..|s + t| - 1] == s + t[..n];
      FilterConcat(s, t[..n], p);
    }
  }

  /** `map` over a sequence. */
  function Map<S, T>(s: seq<S>, f: S -> T): (r: seq<T>)
    ensures |r| == |s|
    ensures forall i :: 0 <= i < |s| ==> r[i] == f(s[i])
  {
    seq(|s|, i requires 0 <= i < |s| => f(s[i]))
  }

  lemma SmallMod(n: nat)
    requires n < 256
    ensures n % 256 == n
  {
  }

  function Fill<T>(x: T, n: nat): (r: seq<T>)
    ensures |r| == n && forall i :: 0 <= i < n ==> r[i] == x
  {
    seq(n, _ => x)
  }

  lemma PrefixGrows<T>(a: seq<T>, b: seq<T>, c: seq<T>)
    requires b <= c
    ensures a + b <= a + c
  {
  }

  lemma Associate<T>(a: seq<T>, b: seq<T>, c: seq<T>)
    ensures a + (b + c) == a + b + c
  {
  }
}
