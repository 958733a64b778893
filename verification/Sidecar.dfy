/** The two files beside a partition log: one record per live entry, and the snapshot base. */
module Sidecar {
  import opened RaftTypes
  import opened Results
  import opened Bytes
  import opened Crc32c
  import opened CrcDetection
  import opened Framing

  datatype EntryMeta = EntryMeta(term: int, base: int, last: int, kind: EntryKind)

  /** What a snapshot covers: up to which index, its term, and the last partition offset. */
  datatype Base = Base(index: int, term: int, last: int)

  const NO_BASE := Base(0, 0, 0)

  predicate MetaFits(m: EntryMeta) {
    Fits(8, m.term) && Fits(8, m.base) && Fits(8, m.last)
  }

  predicate BaseFits(b: Base) {
    Fits(8, b.index) && Fits(8, b.term) && Fits(8, b.last)
  }

  // ---------------------------------------------------------------- files

  /** A positional write: what lies beyond stays, a hole is filled with zeros. */
  function WriteAt(file: seq<Byte>, pos: nat, bytes: seq<Byte>): seq<Byte> {
    var f := if pos <= |file| then file else file + seq(pos - |file|, i => 0);
    f[..pos] + bytes + (if pos + |bytes| <= |f| then f[pos + |bytes|..] else [])
  }

  function CutTo(file: seq<Byte>, size: nat): seq<Byte> {
    if size <= |file| then file[..size] else file + seq(size - |file|, i => 0)
  }

  // ---------------------------------------------------------------- records

  function KindByte(k: EntryKind): Byte {
    if k.Data? then 0 else 1
  }

  function Triple(a: int, b: int, c: int): (s: seq<Byte>)
    ensures |s| == 24
  {
    Store(8, a) + Store(8, b) + Store(8, c)
  }

  lemma TripleBack(a: int, b: int, c: int)
    requires Fits(8, a) && Fits(8, b) && Fits(8, c)
    ensures var t := Triple(a, b, c); Load(t[0..8]) == a && Load(t[8..16]) == b && Load(t[16..24]) == c
  {
    var t := Triple(a, b, c);
    assert t[0..8] == Store(8, a) && t[8..16] == Store(8, b) && t[16..24] == Store(8, c);
    StoreRoundTrip(8, a);
    StoreRoundTrip(8, b);
    StoreRoundTrip(8, c);
  }

  function MetaRecord(m: EntryMeta): (s: seq<Byte>)
    ensures |s| == 25
  {
    Triple(m.term, m.base, m.last) + [KindByte(m.kind)]
  }

  function ReadMeta(s: seq<Byte>): EntryMeta
    requires |s| == 25
  {
    EntryMeta(Load(s[0..8]), Load(s[8..16]), Load(s[16..24]), if s[24] == 0 then Data else EntryKind.Config)
  }

  lemma MetaBack(m: EntryMeta)
    requires MetaFits(m)
    ensures ReadMeta(MetaRecord(m)) == m
  {
    var s, t := MetaRecord(m), Triple(m.term, m.base, m.last);
    assert s[0..8] == t[0..8] && s[8..16] == t[8..16] && s[16..24] == t[16..24];
    TripleBack(m.term, m.base, m.last);
  }

  function MetaParts(es: seq<EntryMeta>): seq<seq<Byte>> {
    seq(|es|, i requires 0 <= i < |es| => MetaRecord(es[i]))
  }

  function MetaFile(es: seq<EntryMeta>): seq<Byte> {
    Concat(MetaParts(es))
  }

  lemma MetaFileGrows(es: seq<EntryMeta>, m: EntryMeta)
    ensures MetaFile(es + [m]) == MetaFile(es) + MetaRecord(m)
  {
    var parts := MetaParts(es + [m]);
    assert parts[..|es|] == MetaParts(es);
  }

  lemma {:induction false} MetaFileSize(es: seq<EntryMeta>)
    ensures |MetaFile(es)| == 25 * |es|
  {
    if es != [] {
      var n := |es| - 1;
      MetaFileSize(es[..n]);
      assert es[..n] + [es[n]] == es;
      MetaFileGrows(es[..n], es[n]);
    }
  }

  lemma {:induction false} MetaFilePrefix(es: seq<EntryMeta>, k: nat)
    requires k <= |es|
    ensures 25 * k <= |MetaFile(es)| && MetaFile(es)[..25 * k] == MetaFile(es[..k])
  {
    MetaFileSize(es);
    MetaFileSize(es[..k]);
    var n := |es| - 1;
    if k <= n {
      MetaFilePrefix(es[..n], k);
      assert es[..n] + [es[n]] == es && es[..n][..k] == es[..k];
      MetaFileGrows(es[..n], es[n]);
    } else {
      assert es[..k] == es;
    }
  }

  lemma MetaSlot(es: seq<EntryMeta>, i: nat)
    requires i < |es|
    ensures 25 * i + 25 <= |MetaFile(es)| && MetaFile(es)[25 * i..25 * i + 25] == MetaRecord(es[i])
  {
    MetaFilePrefix(es, i + 1);
    MetaFileSize(es[..i]);
    assert es[..i + 1] == es[..i] + [es[i]];
    MetaFileGrows(es[..i], es[i]);
    assert MetaFile(es)[25 * i..25 * i + 25] == MetaFile(es)[..25 * (i + 1)][25 * i..];
  }

  function Checked(b: Base): nat {
    Value(Crc(Triple(b.index, b.term, b.last), Zero()))
  }

  function BaseRecord(b: Base): (s: seq<Byte>)
    ensures |s| == 28
  {
    Store(4, Checked(b)) + Triple(b.index, b.term, b.last)
  }

  /** Nothing on file means nothing was ever compacted. */
  function LoadBase(file: seq<Byte>): Result<Base> {
    if file == [] then Ok(NO_BASE)
    else if |file| < 28 then Err(Corrupt)
    else if FromLe(file[0..4]) != Value(Crc(file[4..28], Zero())) then Err(Corrupt)
    else Ok(Base(Load(file[4..12]), Load(file[12..20]), Load(file[20..28])))
  }

  lemma BaseBack(b: Base)
    requires BaseFits(b)
    ensures LoadBase(BaseRecord(b)) == Ok(b)
  {
    var s, t := BaseRecord(b), Triple(b.index, b.term, b.last);
    assert s[0..4] == Store(4, Checked(b)) && s[4..28] == t;
    assert s[4..12] == t[0..8] && s[12..20] == t[8..16] && s[20..28] == t[16..24];
    TripleBack(b.index, b.term, b.last);
    WordBound(Crc(t, Zero()));
    UnsignedRoundTrip(4, Checked(b));
  }

  lemma ThreeWords(s: seq<Byte>)
    requires |s| == 24
    ensures s == s[0..8] + s[8..16] + s[16..24]
  {
  }

  lemma WordOf(w: seq<Byte>)
    requires |w| == 8
    ensures Fits(8, Load(w)) && Store(8, Load(w)) == w
  {
    LoadBack(w);
  }

  lemma TripleOf(s: seq<Byte>)
    requires |s| == 24
    ensures Triple(Load(s[0..8]), Load(s[8..16]), Load(s[16..24])) == s
    ensures Fits(8, Load(s[0..8])) && Fits(8, Load(s[8..16])) && Fits(8, Load(s[16..24]))
  {
    WordOf(s[0..8]);
    WordOf(s[8..16]);
    WordOf(s[16..24]);
    ThreeWords(s);
  }

  lemma BaseSlots(file: seq<Byte>)
    requires |file| >= 28
    ensures var t := file[4..28]; file[4..12] == t[0..8] && file[12..20] == t[8..16] && file[20..28] == t[16..24]
    ensures file[..28] == file[0..4] + file[4..28]
  {
  }

  lemma LoadedBase(file: seq<Byte>)
    requires file != [] && LoadBase(file).Ok?
    ensures BaseFits(LoadBase(file).value) && BaseRecord(LoadBase(file).value) <= file
  {
    BaseSlots(file);
    TripleOf(file[4..28]);
    UnsignedBack(file[0..4]);
    assert BaseRecord(LoadBase(file).value) == file[..28];
  }

  lemma FrontLoads(file: seq<Byte>)
    requires |file| >= 28
    ensures LoadBase(file) == LoadBase(file[..28])
  {
    var f := file[..28];
    assert f[0..4] == file[0..4] && f[4..28] == file[4..28];
    assert f[4..12] == file[4..12] && f[12..20] == file[12..20] && f[20..28] == file[20..28];
  }

  lemma RecordLoads(file: seq<Byte>, b: Base)
    requires BaseFits(b) && BaseRecord(b) <= file
    ensures LoadBase(file) == Ok(b)
  {
    assert file[..28] == BaseRecord(b);
    FrontLoads(file);
    BaseBack(b);
  }

  /** A snapshot file is accepted if and only if it begins with the record of a base. */
  lemma LoadBaseIff(file: seq<Byte>, b: Base)
    requires file != []
    ensures LoadBase(file) == Ok(b) <==> BaseFits(b) && BaseRecord(b) <= file
  {
    if LoadBase(file).Ok? {
      LoadedBase(file);
    }
    if BaseFits(b) && BaseRecord(b) <= file {
      RecordLoads(file, b);
    }
  }

  lemma WrongSum(b: Base, k: nat, v: Byte)
    requires k < 4 && v != Store(4, Checked(b))[k]
    ensures LoadBase(Store(4, Checked(b))[k := v] + Triple(b.index, b.term, b.last)) == Err(Corrupt)
  {
    var sum, t := Store(4, Checked(b))[k := v], Triple(b.index, b.term, b.last);
    var f := sum + t;
    assert f[0..4] == sum && f[4..28] == t;
    UnsignedBack(sum);
    assert sum[k] == v;
  }

  lemma WrongTriple(b: Base, k: nat, v: Byte)
    requires k < 24 && v != Triple(b.index, b.term, b.last)[k]
    ensures LoadBase(Store(4, Checked(b)) + Triple(b.index, b.term, b.last)[k := v]) == Err(Corrupt)
  {
    var sum, t := Store(4, Checked(b)), Triple(b.index, b.term, b.last);
    var u := t[k := v];
    var f := sum + u;
    assert f[0..4] == sum && f[4..28] == u;
    WordBound(Crc(t, Zero()));
    UnsignedRoundTrip(4, Checked(b));
    assert t == t[..k] + [t[k]] + t[k + 1..] && u == t[..k] + [v] + t[k + 1..];
    BurstChangesCrc(t[..k], [t[k]], [v], t[k + 1..], Zero());
    if Value(Crc(u, Zero())) == Value(Crc(t, Zero())) {
      SameValue(Crc(u, Zero()), Crc(t, Zero()));
    }
  }

  /** One wrong byte, wherever it is, and the snapshot file is refused. */
  lemma WrongBaseByteIsRefused(b: Base, i: nat, v: Byte)
    requires i < 28 && v != BaseRecord(b)[i]
    ensures LoadBase(BaseRecord(b)[i := v]) == Err(Corrupt)
  {
    var sum, t := Store(4, Checked(b)), Triple(b.index, b.term, b.last);
    if i < 4 {
      assert BaseRecord(b)[i := v] == sum[i := v] + t;
      WrongSum(b, i, v);
    } else {
      assert BaseRecord(b)[i := v] == sum + t[i - 4 := v];
      WrongTriple(b, i - 4, v);
    }
  }

  // ---------------------------------------------------------------- opening

  datatype Opened = Opened(entries: seq<EntryMeta>, base: Base)

  function LoadMetas(file: seq<Byte>, n: nat): seq<EntryMeta>
    requires 25 * n <= |file|
  {
    seq(n, i requires 0 <= i < n => ReadMeta(file[25 * i..25 * i + 25]))
  }

  /** Where the partition log must end, given its start. */
  function ExpectedEnd(es: seq<EntryMeta>, base: Base, start: int): int {
    if es != [] then es[|es| - 1].last + 1 else if base.index > 0 then base.last + 1 else start
  }

  /** The state a restart finds over a partition log that spans `[start, end)`. */
  function Reopened(meta: seq<Byte>, snap: seq<Byte>, start: int, end: int): Result<Opened> {
    var base :- LoadBase(snap);
    if |meta| % 25 != 0 then Err(Corrupt)
    else
      var es := LoadMetas(meta, |meta| / 25);
      if base.index > 0 && es != [] && es[0].base != base.last + 1 then Err(Corrupt)
      else if ExpectedEnd(es, base, start) != end then Err(Corrupt)
      else Ok(Opened(es, base))
  }

  method Open(meta: seq<Byte>, snap: seq<Byte>, start: int, end: int) returns (r: Result<Opened>)
    ensures r == Reopened(meta, snap, start, end)
  {
    var base := LoadBase(snap);
    if base.Err? {
      return Err(base.error);
    }
    if |meta| % 25 != 0 {
      return Err(Corrupt);
    }
    var count := |meta| / 25;
    var entries: seq<EntryMeta> := [];
    for i := 0 to count
      invariant entries == LoadMetas(meta, i)
    {
      entries := entries + [ReadMeta(meta[25 * i..25 * i + 25])];
    }
    if base.value.index > 0 && entries != [] && entries[0].base != base.value.last + 1 {
      return Err(Corrupt);
    }
    if ExpectedEnd(entries, base.value, start) != end {
      return Err(Corrupt);
    }
    r := Ok(Opened(entries, base.value));
  }

  lemma MetasBack(es: seq<EntryMeta>)
    requires forall m | m in es :: MetaFits(m)
    ensures |MetaFile(es)| == 25 * |es| && LoadMetas(MetaFile(es), |es|) == es
  {
    MetaFileSize(es);
    forall i | 0 <= i < |es| ensures ReadMeta(MetaFile(es)[25 * i..25 * i + 25]) == es[i] {
      MetaSlot(es, i);
      MetaBack(es[i]);
    }
  }

  function SnapFile(b: Base): seq<Byte> {
    if b == NO_BASE then [] else BaseRecord(b)
  }

  lemma SnapBack(b: Base)
    requires BaseFits(b)
    ensures LoadBase(SnapFile(b)) == Ok(b)
  {
    if b != NO_BASE {
      BaseBack(b);
    }
  }

  /** Files that hold a coherent state open to exactly that state. */
  lemma ReopenRoundTrip(es: seq<EntryMeta>, b: Base, start: int, end: int)
    requires (forall m | m in es :: MetaFits(m)) && BaseFits(b)
    requires b.index > 0 && es != [] ==> es[0].base == b.last + 1
    requires ExpectedEnd(es, b, start) == end
    ensures Reopened(MetaFile(es), SnapFile(b), start, end) == Ok(Opened(es, b))
  {
    MetasBack(es);
    SnapBack(b);
  }
}
