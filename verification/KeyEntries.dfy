/**
 * Keystore entries as the firmware lays them out, and what the daemon's caches keep of them
 * (`protocol.rs`, `ble.rs`, `keystore.rs`).
 */
module KeyEntries {
  import opened Wire

  const NAME_LEN_SSH := 16
  const NAME_LEN_OTP := 30
  const NAME_LEN_API := 32
  const SERVICE_LEN_OTP := 30
  const SECRET_LEN_OTP := 32
  const VALUE_LEN_API := 128

  datatype Category = Ssh | Otp | Api

  /** One line of `ssh_keys.json`; the fingerprint is a digest of the blob. */
  datatype SshEntry = SshEntry(index: nat, name: Bytes, blob: Bytes)

  /** One line of `key_names.json`. */
  datatype NameEntry = NameEntry(index: nat, category: Category, name: Bytes, service: Bytes)

  const KEY_TYPE: Bytes := [101, 99, 100, 115, 97, 45, 115, 104, 97, 50, 45, 110, 105, 115, 116, 112, 50, 53, 54]
  const CURVE: Bytes := [110, 105, 115, 116, 112, 50, 53, 54]

  function Ascii(s: string): Bytes
    requires forall i :: 0 <= i < |s| ==> s[i] < '\U{80}'
  {
    seq(|s|, i requires 0 <= i < |s| => s[i] as int)
  }

  lemma NamesSpelled()
    ensures KEY_TYPE == Ascii("ecdsa-sha2-nistp256") && CURVE == Ascii("nistp256")
  {
  }

  /** An SSH string: section 5 of RFC 4251. */
  function SshString(data: Bytes): Bytes {
    U32(|data|) + data
  }

  /** `build_ssh_public_key_blob` for a 64-byte point: section 3.1 of RFC 5656. */
  function PublicKeyBlob(pubkey: Bytes): Bytes {
    SshString(KEY_TYPE) + SshString(CURVE) + SshString([4] + pubkey)
  }

  /** The two 32-byte coordinates with their byte order turned round, each in its own place. */
  function SwapHalves(key: Bytes): (r: Bytes)
    requires |key| == 64
    ensures |r| == 64
    ensures forall i :: 0 <= i < 32 ==> r[i] == key[31 - i]
    ensures forall i :: 32 <= i < 64 ==> r[i] == key[95 - i]
  {
    Reverse(key[..32]) + Reverse(key[32..])
  }

  lemma SwapHalvesTwice(key: Bytes)
    requires |key| == 64
    ensures SwapHalves(SwapHalves(key)) == key
  {
    var s := SwapHalves(key);
    assert s[..32] == Reverse(key[..32]) && s[32..] == Reverse(key[32..]);
    ReverseTwice(key[..32]);
    ReverseTwice(key[32..]);
  }

  /** `convert_endianness_64`: anything but 64 bytes is handed back unchanged. */
  method ConvertEndianness64(le: Bytes) returns (be: Bytes)
    ensures be == if |le| == 64 then SwapHalves(le) else le
  {
    if |le| != 64 {
      return le;
    }
    var buffer := new byte[64](_ => 0);
    for i := 0 to 32
      invariant forall j :: 0 <= j < i ==> buffer[j] == le[31 - j]
    {
      buffer[i] := le[31 - i];
    }
    for i := 0 to 32
      invariant forall j :: 0 <= j < 32 ==> buffer[j] == le[31 - j]
      invariant forall j :: 32 <= j < 32 + i ==> buffer[j] == le[95 - j]
    {
      buffer[32 + i] := le[63 - i];
    }
    be := buffer[..];
  }

  /** Which SSH cache line `read_ssh_entries` makes of one device entry, if any. */
  function ReadSshEntry(index: nat, data: Bytes): Option<SshEntry> {
    if |data| < NAME_LEN_SSH + 64 then None
    else Some(SshEntry(index, UntilNul(data[..16]), PublicKeyBlob(SwapHalves(data[16..80]))))
  }

  function NameLength(c: Category): nat {
    match c
    case Ssh => NAME_LEN_SSH
    case Otp => NAME_LEN_OTP
    case Api => NAME_LEN_API
  }

  /** Which name cache line `read_name_entries` makes of one device entry, if any. */
  function ReadNameEntry(c: Category, index: nat, data: Bytes): Option<NameEntry> {
    var n := NameLength(c);
    if |data| < n then None
    else
      var service :=
        if c == Otp && |data| >= n + SERVICE_LEN_OTP then UntilNul(data[n..n + SERVICE_LEN_OTP]) else [];
      Some(NameEntry(index, c, UntilNul(data[..n]), service))
  }

  /**
   * A device entry of at least 80 bytes makes an SSH line, under its own index: the name up to its NUL, and a blob that ends
   * in the 64 bytes behind the name field, each half turned round.
   */
  lemma SshEntryMeans(index: nat, data: Bytes)
    ensures var r := ReadSshEntry(index, data);
      && (r.Some? <==> |data| >= 80)
      && (r.Some? ==>
          var e := r.value;
          && e.index == index && e.name == UntilNul(data[..16]) && |e.blob| == 104 && e.blob[39] == 4
          && (forall i :: 40 <= i < 72 ==> e.blob[i] == data[87 - i])
          && (forall i :: 72 <= i < 104 ==> e.blob[i] == data[151 - i]))
  {
    if |data| >= 80 {
      var point := SwapHalves(data[16..80]);
      hide SwapHalves;
      var head := U32(19) + KEY_TYPE + U32(8) + CURVE + U32(65) + [4];
      assert |head| == 40;
      assert PublicKeyBlob(point) == head + point;
      hide *;
      assert forall i :: 40 <= i < 104 ==> (head + point)[i] == point[i - 40];
    }
  }

  /** A device entry that fills its name field, of 30 bytes for OTP and 32 for API, makes a name line; only OTP names a service. */
  lemma NameEntryMeans(c: Category, index: nat, data: Bytes)
    ensures var r := ReadNameEntry(c, index, data);
      var n := match c case Ssh => 16 case Otp => 30 case Api => 32;
      if |data| < n then r.None?
      else r == Some(NameEntry(index, c, UntilNul(data[..n]), if c == Otp && |data| >= 60 then UntilNul(data[30..60]) else []))
  {
  }
}
