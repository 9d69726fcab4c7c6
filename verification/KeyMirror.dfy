/** The digest-gated mirror of the device's keys on disk (`ble.rs`, `keystore.rs`). */
module KeyMirror {
  import opened Wire
  import opened KeyEntries

  datatype Digest = Digest(count: nat, checksum: nat)

  /** The three cache files. OTP and API names share one. */
  datatype Disk = Disk(ssh: seq<SshEntry>, names: seq<NameEntry>, digests: map<Category, Digest>)

  /** What the device holds; KEY_COUNT reports at most 255 entries a category. */
  datatype Keys = Keys(ssh: seq<Bytes>, otp: seq<Bytes>, api: seq<Bytes>) {
    function Of(c: Category): seq<Bytes> {
      match c
      case Ssh => ssh
      case Otp => otp
      case Api => api
    }
  }

  /** The firmware's content checksum; 0 when it has none to offer. */
  type Checksum = (Category, seq<Bytes>) -> nat

  /** What goes wrong during one sync. */
  datatype Faults = Faults(count: Category -> bool, read: (Category, nat) -> bool, sshSave: bool, namesSave: bool, digestSave: bool)

  function DigestOf(sum: Checksum, keys: Keys, c: Category): Digest {
    Digest(|keys.Of(c)|, sum(c, keys.Of(c)))
  }

  /** A checksum of 0 always misses. */
  predicate Hit(digests: map<Category, Digest>, c: Category, d: Digest) {
    d.checksum != 0 && c in digests && digests[c] == d
  }

  /** The first `n` entries as SSH cache lines; a failed or unusable one is skipped. */
  function SshLines(entries: seq<Bytes>, fails: (Category, nat) -> bool, n: nat): seq<SshEntry>
    requires n <= |entries|
  {
    if n == 0 then []
    else
      var line := if fails(Ssh, n - 1) then None else ReadSshEntry(n - 1, entries[n - 1]);
      SshLines(entries, fails, n - 1) + if line.Some? then [line.value] else []
  }

  function NameLines(c: Category, entries: seq<Bytes>, fails: (Category, nat) -> bool, n: nat): seq<NameEntry>
    requires n <= |entries|
  {
    if n == 0 then []
    else
      var line := if fails(c, n - 1) then None else ReadNameEntry(c, n - 1, entries[n - 1]);
      NameLines(c, entries, fails, n - 1) + if line.Some? then [line.value] else []
  }

  predicate IsOtp(e: NameEntry) {
    e.category == Otp
  }

  predicate IsApi(e: NameEntry) {
    e.category == Api
  }

  function ReadNames(keys: Keys, c: Category, fails: (Category, nat) -> bool): seq<NameEntry> {
    NameLines(c, keys.Of(c), fails, |keys.Of(c)|)
  }

  datatype Synced = Synced(disk: Disk, ok: bool)

  function SyncSsh(disk: Disk, keys: Keys, sum: Checksum, f: Faults): Synced {
    if f.count(Ssh) then Synced(disk, false)
    else if Hit(disk.digests, Ssh, DigestOf(sum, keys, Ssh)) then Synced(disk, true)
    else if f.sshSave then Synced(disk, false)
    else Synced(disk.(ssh := SshLines(keys.ssh, f.read, |keys.ssh|)), true)
  }

  /** A side that hit is taken from the file, a side that missed from the device. */
  function MergedNames(disk: Disk, keys: Keys, sum: Checksum, f: Faults): seq<NameEntry> {
    (if Hit(disk.digests, Otp, DigestOf(sum, keys, Otp)) then Filter(disk.names, IsOtp) else ReadNames(keys, Otp, f.read))
    + if Hit(disk.digests, Api, DigestOf(sum, keys, Api)) then Filter(disk.names, IsApi) else ReadNames(keys, Api, f.read)
  }

  predicate NamesHit(disk: Disk, keys: Keys, sum: Checksum) {
    Hit(disk.digests, Otp, DigestOf(sum, keys, Otp)) && Hit(disk.digests, Api, DigestOf(sum, keys, Api))
  }

  function SyncNames(disk: Disk, keys: Keys, sum: Checksum, f: Faults): Synced {
    if f.count(Otp) || f.count(Api) then Synced(disk, false)
    else if NamesHit(disk, keys, sum) then Synced(disk, true)
    else if f.namesSave then Synced(disk, false)
    else Synced(disk.(names := MergedNames(disk, keys, sum, f)), true)
  }

  function FreshDigests(digests: map<Category, Digest>, keys: Keys, sum: Checksum, names: bool): map<Category, Digest> {
    var ssh := if Hit(digests, Ssh, DigestOf(sum, keys, Ssh)) then digests else digests[Ssh := DigestOf(sum, keys, Ssh)];
    if names then ssh[Otp := DigestOf(sum, keys, Otp)][Api := DigestOf(sum, keys, Api)] else ssh
  }

  /** `sync_ssh_keys`: the digests go to disk last, and only if nothing before them failed. */
  function Sync(disk: Disk, keys: Keys, sum: Checksum, f: Faults): Synced {
    var first := SyncSsh(disk, keys, sum, f);
    if !first.ok then first
    else
      var second := SyncNames(first.disk, keys, sum, f);
      if !second.ok || f.digestSave then second
      else Synced(second.disk.(digests := FreshDigests(disk.digests, keys, sum, !NamesHit(disk, keys, sum))), true)
  }

  class Mirror {
    var ssh: seq<SshEntry>
    var names: seq<NameEntry>
    var digests: map<Category, Digest>

    ghost function View(): Disk
      reads this
    {
      Disk(ssh, names, digests)
    }

    constructor (disk: Disk)
      ensures View() == disk
    {
      ssh, names, digests := disk.ssh, disk.names, disk.digests;
    }

    method ReadSshEntries(entries: seq<Bytes>, fails: (Category, nat) -> bool) returns (lines: seq<SshEntry>)
      ensures lines == SshLines(entries, fails, |entries|)
    {
      lines := [];
      for i := 0 to |entries|
        invariant lines == SshLines(entries, fails, i)
      {
        if fails(Ssh, i) {
          continue;
        }
        var line := ReadSshEntry(i, entries[i]);
        if line.Some? {
          lines := lines + [line.value];
        }
      }
    }

    method ReadNameEntries(c: Category, entries: seq<Bytes>, fails: (Category, nat) -> bool) returns (lines: seq<NameEntry>)
      ensures lines == NameLines(c, entries, fails, |entries|)
    {
      lines := [];
      for i := 0 to |entries|
        invariant lines == NameLines(c, entries, fails, i)
      {
        if fails(c, i) {
          continue;
        }
        var line := ReadNameEntry(c, i, entries[i]);
        if line.Some? {
          lines := lines + [line.value];
        }
      }
    }

    method SyncSshKeys(keys: Keys, sum: Checksum, f: Faults) returns (ok: bool)
      modifies this
      ensures Synced(View(), ok) == Sync(old(View()), keys, sum, f)
    {
      var saved, renewed := digests, digests;
      if f.count(Ssh) {
        return false;
      }
      var sshDigest := DigestOf(sum, keys, Ssh);
      if !Hit(saved, Ssh, sshDigest) {
        var lines := ReadSshEntries(keys.ssh, f.read);
        if f.sshSave {
          return false;
        }
        ssh := lines;
        renewed := renewed[Ssh := sshDigest];
      }
      if f.count(Otp) || f.count(Api) {
        return false;
      }
      var otpHit, apiHit := Hit(saved, Otp, DigestOf(sum, keys, Otp)), Hit(saved, Api, DigestOf(sum, keys, Api));
      if !(otpHit && apiHit) {
        var otp, api := Filter(names, IsOtp), Filter(names, IsApi);
        if !otpHit {
          otp := ReadNameEntries(Otp, keys.otp, f.read);
        }
        if !apiHit {
          api := ReadNameEntries(Api, keys.api, f.read);
        }
        if f.namesSave {
          return false;
        }
        names := otp + api;
        renewed := renewed[Otp := DigestOf(sum, keys, Otp)][Api := DigestOf(sum, keys, Api)];
      }
      if !f.digestSave {
        digests := renewed;
      }
      return true;
    }
  }

  // ---- The mirror is a full re-read ----

  predicate NoFail(c: Category, i: nat) {
    false
  }

  predicate NoCountFail(c: Category) {
    false
  }

  const NO_FAULTS: Faults := Faults(NoCountFail, NoFail, false, false, false)

  function FullSsh(keys: Keys): seq<SshEntry> {
    SshLines(keys.ssh, NoFail, |keys.ssh|)
  }

  function FullNames(keys: Keys, c: Category): seq<NameEntry> {
    ReadNames(keys, c, NoFail)
  }

  /** `e` is what reading the slot it names yields. */
  predicate SshLineOf(e: SshEntry, entries: seq<Bytes>) {
    e.index < |entries| && Some(e) == ReadSshEntry(e.index, entries[e.index])
  }

  predicate NameLineOf(e: NameEntry, c: Category, entries: seq<Bytes>) {
    e.index < |entries| && Some(e) == ReadNameEntry(c, e.index, entries[e.index])
  }

  /**
   * The lines of the first `n` slots: each is that of the slot whose index it carries, the indices increase, and every slot
   * that has a line to give is there.
   */
  predicate SshSlotBySlot(lines: seq<SshEntry>, entries: seq<Bytes>, n: nat)
    requires n <= |entries|
  {
    && (forall k :: 0 <= k < |lines| ==> lines[k].index < n && SshLineOf(lines[k], entries))
    && (forall j, k :: 0 <= j < k < |lines| ==> lines[j].index < lines[k].index)
    && (forall i :: 0 <= i < n ==> ReadSshEntry(i, entries[i]).Some? ==> ReadSshEntry(i, entries[i]).value in lines)
  }

  predicate NamesSlotBySlot(lines: seq<NameEntry>, c: Category, entries: seq<Bytes>, n: nat)
    requires n <= |entries|
  {
    && (forall k :: 0 <= k < |lines| ==> lines[k].index < n && NameLineOf(lines[k], c, entries))
    && (forall j, k :: 0 <= j < k < |lines| ==> lines[j].index < lines[k].index)
    && (forall i :: 0 <= i < n ==> ReadNameEntry(c, i, entries[i]).Some? ==> ReadNameEntry(c, i, entries[i]).value in lines)
  }

  lemma SshSlotAdded(before: seq<SshEntry>, entries: seq<Bytes>, n: nat, line: Option<SshEntry>)
    requires n < |entries| && SshSlotBySlot(before, entries, n) && line == ReadSshEntry(n, entries[n])
    ensures SshSlotBySlot(before + if line.Some? then [line.value] else [], entries, n + 1)
  {
    assert line.Some? ==> line.value.index == n && SshLineOf(line.value, entries);
    hide ReadSshEntry, SshLineOf;
  }

  lemma NameSlotAdded(before: seq<NameEntry>, c: Category, entries: seq<Bytes>, n: nat, line: Option<NameEntry>)
    requires n < |entries| && NamesSlotBySlot(before, c, entries, n) && line == ReadNameEntry(c, n, entries[n])
    ensures NamesSlotBySlot(before + if line.Some? then [line.value] else [], c, entries, n + 1)
  {
    assert line.Some? ==> line.value.index == n && NameLineOf(line.value, c, entries);
    hide ReadNameEntry, NameLineOf;
  }

  lemma {:induction false} SshLinesMean(entries: seq<Bytes>, n: nat)
    requires n <= |entries|
    ensures SshSlotBySlot(SshLines(entries, NoFail, n), entries, n)
  {
    if n > 0 {
      SshLinesMean(entries, n - 1);
      hide SshSlotBySlot, ReadSshEntry;
      SshSlotAdded(SshLines(entries, NoFail, n - 1), entries, n - 1, ReadSshEntry(n - 1, entries[n - 1]));
    }
  }

  lemma {:induction false} NameLinesMean(c: Category, entries: seq<Bytes>, n: nat)
    requires n <= |entries|
    ensures NamesSlotBySlot(NameLines(c, entries, NoFail, n), c, entries, n)
  {
    if n > 0 {
      NameLinesMean(c, entries, n - 1);
      hide NamesSlotBySlot, ReadNameEntry;
      NameSlotAdded(NameLines(c, entries, NoFail, n - 1), c, entries, n - 1, ReadNameEntry(c, n - 1, entries[n - 1]));
    }
  }

  /** A full re-read, slot by slot. */
  lemma FullReadMeans(keys: Keys, c: Category)
    ensures SshSlotBySlot(FullSsh(keys), keys.ssh, |keys.ssh|)
    ensures NamesSlotBySlot(FullNames(keys, c), c, keys.Of(c), |keys.Of(c)|)
  {
    hide SshSlotBySlot, NamesSlotBySlot;
    SshLinesMean(keys.ssh, |keys.ssh|);
    NameLinesMean(c, keys.Of(c), |keys.Of(c)|);
  }

  /** What a full re-read would leave in the cache files. */
  predicate Mirrors(disk: Disk, keys: Keys) {
    disk.ssh == FullSsh(keys) && disk.names == FullNames(keys, Otp) + FullNames(keys, Api)
  }

  /** One category's share of the cache files. */
  datatype Share = SshShare(lines: seq<SshEntry>) | NameShare(names: seq<NameEntry>)

  function ShareOf(disk: Disk, c: Category): Share {
    match c
    case Ssh => SshShare(disk.ssh)
    case Otp => NameShare(Filter(disk.names, IsOtp))
    case Api => NameShare(Filter(disk.names, IsApi))
  }

  /** What reading a category off the device yields. */
  function ReadShare(keys: Keys, c: Category, fails: (Category, nat) -> bool): Share {
    if c == Ssh then SshShare(SshLines(keys.ssh, fails, |keys.ssh|)) else NameShare(ReadNames(keys, c, fails))
  }

  /** A category's share of the cache files is a full read of `keys`. */
  predicate Holds(disk: Disk, c: Category, keys: Keys) {
    ShareOf(disk, c) == ReadShare(keys, c, NoFail)
  }

  /** The digest on disk for `c` was taken from `keys`, whose lines are the ones cached. */
  predicate Backs(disk: Disk, c: Category, keys: Keys, sum: Checksum)
    requires c in disk.digests
  {
    DigestOf(sum, keys, c) == disk.digests[c] && Holds(disk, c, keys)
  }

  /** If the digest on disk can hit at all, some state of the device so far is behind it. */
  ghost predicate Backed(disk: Disk, c: Category, history: seq<Keys>, sum: Checksum) {
    c in disk.digests && disk.digests[c].checksum != 0 ==> exists k :: k in history && Backs(disk, c, k, sum)
  }

  predicate SidesInOrder(disk: Disk) {
    Otp in disk.digests || Api in disk.digests ==> disk.names == Filter(disk.names, IsOtp) + Filter(disk.names, IsApi)
  }

  ghost predicate Inv(disk: Disk, history: seq<Keys>, sum: Checksum) {
    Backed(disk, Ssh, history, sum) && Backed(disk, Otp, history, sum) && Backed(disk, Api, history, sum) && SidesInOrder(disk)
  }

  /** Over the states the device has been in, equal counts and checksums mean equal entries. */
  ghost predicate Distinguishes(sum: Checksum, history: seq<Keys>) {
    forall c, x, y :: x in history && y in history
      && |x.Of(c)| == |y.Of(c)| && sum(c, x.Of(c)) == sum(c, y.Of(c)) != 0
      ==> x.Of(c) == y.Of(c)
  }

  lemma {:induction false} LinesHaveCategory(c: Category, entries: seq<Bytes>, fails: (Category, nat) -> bool, n: nat)
    requires n <= |entries|
    ensures forall e | e in NameLines(c, entries, fails, n) :: e.category == c
  {
    if n > 0 {
      LinesHaveCategory(c, entries, fails, n - 1);
    }
  }

  lemma {:induction false} FilterAll<T>(s: seq<T>, p: T -> bool)
    requires forall x | x in s :: p(x)
    ensures Filter(s, p) == s
  {
    if s != [] {
      var n := |s| - 1;
      assert s == s[..n] + [s[n]];
      FilterAll(s[..n], p);
    }
  }

  lemma {:induction false} FilterNone<T>(s: seq<T>, p: T -> bool)
    requires forall x | x in s :: !p(x)
    ensures Filter(s, p) == []
  {
    if s != [] {
      var n := |s| - 1;
      assert s == s[..n] + [s[n]];
      FilterNone(s[..n], p);
    }
  }

  /** Two sides put together come apart again by category. */
  lemma SidesSplit(otp: seq<NameEntry>, api: seq<NameEntry>)
    requires forall e | e in otp :: e.category == Otp
    requires forall e | e in api :: e.category == Api
    ensures Filter(otp + api, IsOtp) == otp && Filter(otp + api, IsApi) == api
  {
    FilterConcat(otp, api, IsOtp);
    FilterConcat(otp, api, IsApi);
    FilterAll(otp, IsOtp);
    FilterAll(api, IsApi);
    FilterNone(otp, IsApi);
    FilterNone(api, IsOtp);
  }

  /** A hit means the cached lines are those of the keys on the device now. */
  lemma HitHolds(disk: Disk, c: Category, keys: Keys, history: seq<Keys>, sum: Checksum)
    requires Inv(disk, history, sum) && Distinguishes(sum, history) && keys in history
    requires Hit(disk.digests, c, DigestOf(sum, keys, c))
    ensures Holds(disk, c, keys)
  {
    var k :| k in history && Backs(disk, c, k, sum);
    assert k.Of(c) == keys.Of(c);
  }

  /** The names file after a sync without failed reads, in all four mixes of hit and miss. */
  lemma MergeMirrors(disk: Disk, keys: Keys, history: seq<Keys>, sum: Checksum, f: Faults)
    requires Inv(disk, history, sum) && Distinguishes(sum, history) && keys in history && f.read == NoFail
    ensures MergedNames(disk, keys, sum, f) == FullNames(keys, Otp) + FullNames(keys, Api)
    ensures NamesHit(disk, keys, sum) ==> disk.names == FullNames(keys, Otp) + FullNames(keys, Api)
  {
    if Hit(disk.digests, Otp, DigestOf(sum, keys, Otp)) {
      HitHolds(disk, Otp, keys, history, sum);
    }
    if Hit(disk.digests, Api, DigestOf(sum, keys, Api)) {
      HitHolds(disk, Api, keys, history, sum);
    }
  }

  /** One complete sync from a backed disk leaves exactly what a full re-read would. */
  lemma SyncMirrors(disk: Disk, keys: Keys, history: seq<Keys>, sum: Checksum)
    requires Inv(disk, history, sum) && Distinguishes(sum, history) && keys in history
    ensures Sync(disk, keys, sum, NO_FAULTS).ok && Mirrors(Sync(disk, keys, sum, NO_FAULTS).disk, keys)
  {
    if Hit(disk.digests, Ssh, DigestOf(sum, keys, Ssh)) {
      HitHolds(disk, Ssh, keys, history, sum);
    }
    MergeMirrors(disk, keys, history, sum, NO_FAULTS);
    var first := SyncSsh(disk, keys, sum, NO_FAULTS).disk;
    assert first.digests == disk.digests && first.names == disk.names;
    hide FullNames, FullSsh, Filter, ReadNames, DigestOf;
  }

  // ---- Histories ----

  // Which category a sync rewrites and whether it saves its digests, by the faults it meets and the digests that hit.

  predicate HitsNow(disk: Disk, keys: Keys, sum: Checksum, c: Category) {
    Hit(disk.digests, c, DigestOf(sum, keys, c))
  }

  predicate ReachesNames(disk: Disk, keys: Keys, sum: Checksum, f: Faults) {
    !f.count(Ssh) && (HitsNow(disk, keys, sum, Ssh) || !f.sshSave) && !f.count(Otp) && !f.count(Api)
  }

  predicate Rewrites(disk: Disk, keys: Keys, sum: Checksum, f: Faults, c: Category) {
    && !HitsNow(disk, keys, sum, c)
    && if c == Ssh then !f.count(Ssh) && !f.sshSave else ReachesNames(disk, keys, sum, f) && !f.namesSave
  }

  predicate SavesDigests(disk: Disk, keys: Keys, sum: Checksum, f: Faults) {
    ReachesNames(disk, keys, sum, f) && (NamesHit(disk, keys, sum) || !f.namesSave) && !f.digestSave
  }

  predicate Usable(c: Category, keys: Keys, i: nat)
    requires i < |keys.Of(c)|
  {
    if c == Ssh then ReadSshEntry(i, keys.ssh[i]).Some? else ReadNameEntry(c, i, keys.Of(c)[i]).Some?
  }

  predicate LosesNothing(c: Category, keys: Keys, f: Faults) {
    forall i :: 0 <= i < |keys.Of(c)| && f.read(c, i) ==> !Usable(c, keys, i)
  }

  /**
   * A rewritten category stays backed: with its digest saved, if the checksum is 0 or no usable entry's read failed; without,
   * if there was no digest that could hit, or the rewritten lines are the old ones.
   */
  predicate SoundFor(disk: Disk, keys: Keys, sum: Checksum, f: Faults, c: Category) {
    Rewrites(disk, keys, sum, f, c) ==>
      if SavesDigests(disk, keys, sum, f) then sum(c, keys.Of(c)) == 0 || LosesNothing(c, keys, f)
      else c !in disk.digests || disk.digests[c].checksum == 0 || ReadShare(keys, c, f.read) == ShareOf(disk, c)
  }

  predicate Sound(disk: Disk, keys: Keys, sum: Checksum, f: Faults) {
    SoundFor(disk, keys, sum, f, Ssh) && SoundFor(disk, keys, sum, f, Otp) && SoundFor(disk, keys, sum, f, Api)
  }

  /** No usable line among the first `n` is lost. */
  predicate SshWhole(entries: seq<Bytes>, fails: (Category, nat) -> bool, n: nat)
    requires n <= |entries|
  {
    forall i :: 0 <= i < n && fails(Ssh, i) ==> ReadSshEntry(i, entries[i]).None?
  }

  predicate NamesWhole(c: Category, entries: seq<Bytes>, fails: (Category, nat) -> bool, n: nat)
    requires n <= |entries|
  {
    forall i :: 0 <= i < n && fails(c, i) ==> ReadNameEntry(c, i, entries[i]).None?
  }

  lemma {:induction false} SshLinesFull(entries: seq<Bytes>, fails: (Category, nat) -> bool, n: nat)
    requires n <= |entries|
    ensures |SshLines(entries, fails, n)| <= |SshLines(entries, NoFail, n)|
    ensures SshLines(entries, fails, n) == SshLines(entries, NoFail, n) <==> SshWhole(entries, fails, n)
  {
    if n > 0 {
      SshLinesFull(entries, fails, n - 1);
      var line := ReadSshEntry(n - 1, entries[n - 1]);
      assert SshWhole(entries, fails, n) <==> SshWhole(entries, fails, n - 1) && (fails(Ssh, n - 1) ==> line.None?);
      var part, all := SshLines(entries, fails, n - 1), SshLines(entries, NoFail, n - 1);
      var partNow, allNow := SshLines(entries, fails, n), SshLines(entries, NoFail, n);
      assert partNow == part + if fails(Ssh, n - 1) || line.None? then [] else [line.value];
      assert allNow == all + if line.None? then [] else [line.value];
      hide *;
      Appended(part, all, partNow, allNow, line, fails(Ssh, n - 1));
    }
  }

  lemma NamesWholeNext(c: Category, entries: seq<Bytes>, fails: (Category, nat) -> bool, n: nat)
    requires n < |entries|
    ensures NamesWhole(c, entries, fails, n + 1) <==>
      NamesWhole(c, entries, fails, n) && (fails(c, n) ==> ReadNameEntry(c, n, entries[n]).None?)
  {
    hide ReadNameEntry;
  }

  lemma {:induction false} NameLinesFull(c: Category, entries: seq<Bytes>, fails: (Category, nat) -> bool, n: nat)
    requires n <= |entries|
    ensures |NameLines(c, entries, fails, n)| <= |NameLines(c, entries, NoFail, n)|
    ensures NameLines(c, entries, fails, n) == NameLines(c, entries, NoFail, n) <==> NamesWhole(c, entries, fails, n)
  {
    if n > 0 {
      NameLinesFull(c, entries, fails, n - 1);
      hide ReadNameEntry;
      var line := ReadNameEntry(c, n - 1, entries[n - 1]);
      NamesWholeNext(c, entries, fails, n - 1);
      hide NamesWhole;
      var part, all := NameLines(c, entries, fails, n - 1), NameLines(c, entries, NoFail, n - 1);
      var partNow, allNow := NameLines(c, entries, fails, n), NameLines(c, entries, NoFail, n);
      assert partNow == part + if fails(c, n - 1) || line.None? then [] else [line.value];
      assert allNow == all + if line.None? then [] else [line.value];
      hide *;
      Appended(part, all, partNow, allNow, line, fails(c, n - 1));
    }
  }

  /** One more line keeps a shorter reading shorter, and equal only if it is not lost. */
  lemma Appended<T>(part: seq<T>, all: seq<T>, partNow: seq<T>, allNow: seq<T>, line: Option<T>, lost: bool)
    requires |part| <= |all|
    requires partNow == part + (if lost || line.None? then [] else [line.value]) && allNow == all + if line.None? then [] else [line.value]
    ensures |partNow| <= |allNow|
    ensures partNow == allNow <==> part == all && (lost ==> line.None?)
  {
    if line.None? {
      assert partNow == part && allNow == all;
    } else if lost {
      assert partNow == part;
    } else {
      SameAppended(part, all, line.value);
    }
  }

  lemma SameAppended<T>(a: seq<T>, b: seq<T>, x: T)
    ensures a + [x] == b + [x] <==> a == b
  {
    assert (a + [x])[..|a|] == a && (b + [x])[..|b|] == b;
  }

  /** A read is full exactly when no usable entry was lost. */
  lemma ReadIsFull(c: Category, keys: Keys, f: Faults)
    ensures ReadShare(keys, c, f.read) == ReadShare(keys, c, NoFail) <==> LosesNothing(c, keys, f)
  {
    if c == Ssh {
      SshLinesFull(keys.ssh, f.read, |keys.ssh|);
    } else {
      NameLinesFull(c, keys.Of(c), f.read, |keys.Of(c)|);
    }
    hide SshLines, NameLines, ReadSshEntry, ReadNameEntry;
  }

  predicate AllOf(lines: seq<NameEntry>, c: Category) {
    forall e | e in lines :: e.category == c
  }

  /** The rewritten names file, taken apart again. */
  lemma MergedSides(disk: Disk, keys: Keys, sum: Checksum, f: Faults)
    ensures var merged := MergedNames(disk, keys, sum, f);
      && Filter(merged, IsOtp) == (if HitsNow(disk, keys, sum, Otp) then Filter(disk.names, IsOtp) else ReadNames(keys, Otp, f.read))
      && Filter(merged, IsApi) == (if HitsNow(disk, keys, sum, Api) then Filter(disk.names, IsApi) else ReadNames(keys, Api, f.read))
      && merged == Filter(merged, IsOtp) + Filter(merged, IsApi)
  {
    LinesHaveCategory(Otp, keys.otp, f.read, |keys.otp|);
    LinesHaveCategory(Api, keys.api, f.read, |keys.api|);
    assert AllOf(Filter(disk.names, IsOtp), Otp) && AllOf(Filter(disk.names, IsApi), Api);
    var otp := if HitsNow(disk, keys, sum, Otp) then Filter(disk.names, IsOtp) else ReadNames(keys, Otp, f.read);
    var api := if HitsNow(disk, keys, sum, Api) then Filter(disk.names, IsApi) else ReadNames(keys, Api, f.read);
    SidesSplit(otp, api);
  }

  /** What a sync does to the files, category by category. */
  lemma SyncRewrites(disk: Disk, keys: Keys, sum: Checksum, f: Faults)
    ensures var t := Sync(disk, keys, sum, f).disk;
      && t.ssh == (if Rewrites(disk, keys, sum, f, Ssh) then SshLines(keys.ssh, f.read, |keys.ssh|) else disk.ssh)
      && t.names == (if Rewrites(disk, keys, sum, f, Otp) || Rewrites(disk, keys, sum, f, Api) then MergedNames(disk, keys, sum, f) else disk.names)
      && t.digests == (if SavesDigests(disk, keys, sum, f) then FreshDigests(disk.digests, keys, sum, !NamesHit(disk, keys, sum)) else disk.digests)
  {
    var first := SyncSsh(disk, keys, sum, f).disk;
    assert first.digests == disk.digests && first.names == disk.names;
    hide Filter, ReadNames, SshLines, DigestOf, Hit, FreshDigests;
  }

  lemma SyncShares(disk: Disk, keys: Keys, sum: Checksum, f: Faults, c: Category)
    ensures ShareOf(Sync(disk, keys, sum, f).disk, c) ==
      if Rewrites(disk, keys, sum, f, c) then ReadShare(keys, c, f.read) else ShareOf(disk, c)
  {
    SyncRewrites(disk, keys, sum, f);
    MergedSides(disk, keys, sum, f);
    hide Sync, MergedNames, Filter, ReadNames, SshLines, Hit, DigestOf, SavesDigests, FreshDigests;
  }

  lemma SyncDigests(disk: Disk, keys: Keys, sum: Checksum, f: Faults, c: Category)
    ensures var t := Sync(disk, keys, sum, f).disk;
      if SavesDigests(disk, keys, sum, f) then c in t.digests && t.digests[c] == DigestOf(sum, keys, c)
      else t.digests == disk.digests
    ensures SavesDigests(disk, keys, sum, f) && !Rewrites(disk, keys, sum, f, c) ==> HitsNow(disk, keys, sum, c)
  {
    SyncRewrites(disk, keys, sum, f);
    hide Sync, MergedNames, DigestOf;
  }

  /** Category by category, the guard is exact. */
  lemma SoundForIffBacked(disk: Disk, keys: Keys, history: seq<Keys>, sum: Checksum, f: Faults, c: Category)
    requires Backed(disk, c, history, sum) && Distinguishes(sum, history) && keys in history
    ensures Backed(Sync(disk, keys, sum, f).disk, c, history, sum) <==> SoundFor(disk, keys, sum, f, c)
  {
    var t := Sync(disk, keys, sum, f).disk;
    SyncShares(disk, keys, sum, f, c);
    SyncDigests(disk, keys, sum, f, c);
    ReadIsFull(c, keys, f);
    hide Sync, SavesDigests, LosesNothing, Rewrites, ShareOf;
    if !Rewrites(disk, keys, sum, f, c) {
      BackedStays(disk, t, c, history, sum);
    } else if SavesDigests(disk, keys, sum, f) {
      BackedBy(t, c, keys, history, sum);
    } else if c in disk.digests && disk.digests[c].checksum != 0 {
      var k :| k in history && Backs(disk, c, k, sum);
      BackedBy(t, c, k, history, sum);
    }
  }

  lemma BackedStays(disk: Disk, t: Disk, c: Category, history: seq<Keys>, sum: Checksum)
    requires Backed(disk, c, history, sum) && ShareOf(t, c) == ShareOf(disk, c)
    requires c in t.digests ==> c in disk.digests && t.digests[c] == disk.digests[c]
    ensures Backed(t, c, history, sum)
  {
    hide ShareOf, ReadShare;
    if c in t.digests && t.digests[c].checksum != 0 {
      var k :| k in history && Backs(disk, c, k, sum);
      assert Backs(t, c, k, sum);
    }
  }

  /** With a digest taken from `k`, a state is backed exactly if its lines are those of `k`. */
  lemma BackedBy(t: Disk, c: Category, k: Keys, history: seq<Keys>, sum: Checksum)
    requires Distinguishes(sum, history) && k in history
    requires c in t.digests && t.digests[c] == DigestOf(sum, k, c)
    ensures Backed(t, c, history, sum) <==> sum(c, k.Of(c)) == 0 || ShareOf(t, c) == ReadShare(k, c, NoFail)
  {
    hide ShareOf, Filter;
    if sum(c, k.Of(c)) != 0 {
      if Holds(t, c, k) {
        assert Backs(t, c, k, sum);
      }
      if x :| x in history && Backs(t, c, x, sum) {
        assert x.Of(c) == k.Of(c);
        SameKeysSameShare(c, x, k);
      }
    }
  }

  lemma SameKeysSameShare(c: Category, a: Keys, b: Keys)
    requires a.Of(c) == b.Of(c)
    ensures ReadShare(a, c, NoFail) == ReadShare(b, c, NoFail)
  {
    hide SshLines, NameLines;
  }

  lemma SidesStayInOrder(disk: Disk, keys: Keys, sum: Checksum, f: Faults)
    requires SidesInOrder(disk)
    ensures SidesInOrder(Sync(disk, keys, sum, f).disk)
  {
    SyncRewrites(disk, keys, sum, f);
    MergedSides(disk, keys, sum, f);
    hide Sync, MergedNames, Filter, ReadNames, SshLines, DigestOf;
  }

  /**
   * Over any backed disk, a sync leaves a backed disk if and only if it is sound: a condition on the faults it meets, the
   * digests that hit and the lines it writes.
   */
  lemma SoundIffBacked(disk: Disk, keys: Keys, history: seq<Keys>, sum: Checksum, f: Faults)
    requires Inv(disk, history, sum) && Distinguishes(sum, history) && keys in history
    ensures Inv(Sync(disk, keys, sum, f).disk, history, sum) <==> Sound(disk, keys, sum, f)
  {
    SidesStayInOrder(disk, keys, sum, f);
    hide Sync, Backed, SidesInOrder, SoundFor, Distinguishes;
    SoundForIffBacked(disk, keys, history, sum, f, Ssh);
    SoundForIffBacked(disk, keys, history, sum, f, Otp);
    SoundForIffBacked(disk, keys, history, sum, f, Api);
  }

  datatype Step = Change(keys: Keys) | Resync(faults: Faults)

  datatype World = World(disk: Disk, keys: Keys, history: seq<Keys>)

  /** The device's keys change, or the daemon syncs; `history` collects every state the device has been in. */
  function Play(w: World, steps: seq<Step>, sum: Checksum): World {
    if steps == [] then w
    else
      var before := Play(w, steps[..|steps| - 1], sum);
      match steps[|steps| - 1]
      case Change(keys) => before.(keys := keys, history := before.history + [keys])
      case Resync(f) => before.(disk := Sync(before.disk, before.keys, sum, f).disk)
  }

  /** Every sync along the way was sound. */
  predicate AllSound(w: World, steps: seq<Step>, sum: Checksum) {
    steps == [] || (
      var n := |steps| - 1;
      var before := Play(w, steps[..n], sum);
      AllSound(w, steps[..n], sum) && (steps[n].Resync? ==> Sound(before.disk, before.keys, sum, steps[n].faults)))
  }

  lemma InvGrows(disk: Disk, history: seq<Keys>, k: Keys, sum: Checksum)
    requires Inv(disk, history, sum)
    ensures Inv(disk, history + [k], sum)
  {
    BackedGrows(disk, Ssh, history, k, sum);
    BackedGrows(disk, Otp, history, k, sum);
    BackedGrows(disk, Api, history, k, sum);
    hide Backed, SidesInOrder;
  }

  lemma BackedGrows(disk: Disk, c: Category, history: seq<Keys>, k: Keys, sum: Checksum)
    requires Backed(disk, c, history, sum)
    ensures Backed(disk, c, history + [k], sum)
  {
    hide Backs;
    if c in disk.digests && disk.digests[c].checksum != 0 {
      var x :| x in history && Backs(disk, c, x, sum);
      assert x in history + [k];
    }
  }

  lemma {:induction false} PlayKeepsInv(w: World, steps: seq<Step>, sum: Checksum)
    requires w.disk.digests == map[] && w.history == [w.keys]
    requires AllSound(w, steps, sum) && Distinguishes(sum, Play(w, steps, sum).history)
    ensures var e := Play(w, steps, sum); Inv(e.disk, e.history, sum) && e.keys in e.history
  {
    if steps != [] {
      var n := |steps| - 1;
      var before, after := Play(w, steps[..n], sum), Play(w, steps, sum);
      assert forall x :: x in before.history ==> x in after.history;
      PlayKeepsInv(w, steps[..n], sum);
      match steps[n]
      case Change(keys) => InvGrows(before.disk, before.history, keys, sum);
      case Resync(f) =>
        hide Sound, Sync;
        SoundIffBacked(before.disk, before.keys, before.history, sum, f);
    }
  }

  /**
   * After any history of key changes and sound syncs, one complete sync leaves in both cache files exactly what a
   * full re-read would, whichever categories it did not read.
   */
  lemma CompleteSyncMirrors(w: World, steps: seq<Step>, sum: Checksum)
    requires w.disk.digests == map[] && w.history == [w.keys]
    requires AllSound(w, steps, sum) && Distinguishes(sum, Play(w, steps, sum).history)
    ensures var e := Play(w, steps, sum);
      var r := Sync(e.disk, e.keys, sum, NO_FAULTS);
      r.ok && Mirrors(r.disk, e.keys)
  {
    PlayKeepsInv(w, steps, sum);
    var e := Play(w, steps, sum);
    SyncMirrors(e.disk, e.keys, e.history, sum);
  }

  // ---- What an unsound sync leaves behind ----

  predicate OtpCountFails(c: Category) {
    c == Otp
  }

  const LOST_AFTER_SSH: Faults := NO_FAULTS.(count := OtpCountFails)

  /**
   * A sync cut off after the SSH file was saved keeps the old digest. When the device returns to the old keys that
   * digest hits, and the file stays wrong through every later complete sync.
   */
  lemma CutOffSyncGoesStale(disk: Disk, a: Keys, b: Keys, sum: Checksum, n: nat)
    requires disk.digests == map[] && sum(Ssh, a.ssh) != 0 && DigestOf(sum, a, Ssh) != DigestOf(sum, b, Ssh)
    ensures
      var first := Sync(disk, a, sum, NO_FAULTS).disk;
      var cut := Sync(first, b, sum, LOST_AFTER_SSH).disk;
      Repeat(cut, a, sum, n).ssh == FullSsh(b)
  {
    var first := Sync(disk, a, sum, NO_FAULTS).disk;
    SyncDigests(disk, a, sum, NO_FAULTS, Ssh);
    SyncRewrites(first, b, sum, LOST_AFTER_SSH);
    var cut := Sync(first, b, sum, LOST_AFTER_SSH).disk;
    hide Sync, SshLines, MergedNames, FreshDigests;
    HitStays(cut, a, sum, n);
  }

  /** `n` complete syncs, one after the other. */
  function Repeat(disk: Disk, keys: Keys, sum: Checksum, n: nat): Disk
    decreases n
  {
    if n == 0 then disk else Repeat(Sync(disk, keys, sum, NO_FAULTS).disk, keys, sum, n - 1)
  }

  lemma HitKeeps(disk: Disk, keys: Keys, sum: Checksum)
    requires HitsNow(disk, keys, sum, Ssh)
    ensures var t := Sync(disk, keys, sum, NO_FAULTS).disk; HitsNow(t, keys, sum, Ssh) && t.ssh == disk.ssh
  {
    SyncRewrites(disk, keys, sum, NO_FAULTS);
    SyncDigests(disk, keys, sum, NO_FAULTS, Ssh);
    hide Sync, MergedNames, SshLines, FreshDigests, DigestOf, SavesDigests, NamesHit;
  }

  /** A digest that hits keeps its file through any number of complete syncs. */
  lemma {:induction false} HitStays(disk: Disk, keys: Keys, sum: Checksum, n: nat)
    requires HitsNow(disk, keys, sum, Ssh)
    ensures HitsNow(Repeat(disk, keys, sum, n), keys, sum, Ssh) && Repeat(disk, keys, sum, n).ssh == disk.ssh
    decreases n
  {
    if n > 0 {
      hide Sync, HitsNow;
      HitKeeps(disk, keys, sum);
      HitStays(Sync(disk, keys, sum, NO_FAULTS).disk, keys, sum, n - 1);
    }
  }

  /** An entry whose read failed is missing for good: the digest is saved all the same, and hits from then on. */
  lemma SkippedReadSticks(disk: Disk, keys: Keys, sum: Checksum, f: Faults, n: nat)
    requires disk.digests == map[] && sum(Ssh, keys.ssh) != 0 && f == NO_FAULTS.(read := f.read)
    ensures Repeat(Sync(disk, keys, sum, f).disk, keys, sum, n).ssh == SshLines(keys.ssh, f.read, |keys.ssh|)
    ensures SshLines(keys.ssh, f.read, |keys.ssh|) == FullSsh(keys) <==> LosesNothing(Ssh, keys, f)
  {
    var first := Sync(disk, keys, sum, f).disk;
    SyncRewrites(disk, keys, sum, f);
    SyncDigests(disk, keys, sum, f, Ssh);
    ReadIsFull(Ssh, keys, f);
    hide Sync, SshLines, MergedNames, FreshDigests, LosesNothing;
    HitStays(first, keys, sum, n);
  }
}
