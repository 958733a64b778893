/** A batch on disk: a fixed header, a checksum over everything after it, then the records. */
module RecordBatches {
  import opened Common
  import opened RaftTypes
  import opened Results
  import opened Bytes
  import opened Crc32c
  import opened Varint
  import opened Framing
  import opened RecordCodec

  datatype BatchHeader = BatchHeader(
    baseOffset: int, attrs: int, producerId: int, producerEpoch: int, baseSequence: int, recordCount: int)

  datatype RecordBatch = RecordBatch(header: BatchHeader, records: seq<Byte>)

  const HEADER_SIZE: nat := 36
  const LENGTH_END: nat := 12

  /** The part of the header the checksum covers. */
  function Tail(h: BatchHeader): (s: seq<Byte>)
    ensures |s| == 20
  {
    Store(2, h.attrs) + Store(8, h.producerId) + Store(2, h.producerEpoch) + Store(4, h.baseSequence) +
    Store(4, h.recordCount)
  }

  function Lead(base: int, length: int, crc: int): (s: seq<Byte>)
    ensures |s| == 16
  {
    Store(8, base) + Store(4, length) + Store(4, crc)
  }

  function Length(b: RecordBatch): int {
    HEADER_SIZE - LENGTH_END + |b.records|
  }

  /** Checksum of the header's tail, continued over the records. */
  function CrcOf(b: RecordBatch): nat {
    Value(Crc(b.records, Crc(Tail(b.header), Zero())))
  }

  function BatchBytes(b: RecordBatch): seq<Byte> {
    Lead(b.header.baseOffset, Length(b), CrcOf(b)) + Tail(b.header) + b.records
  }

  // ---------------------------------------------------------------- writing

  /** The `n` low bytes of `v` into `out` from `pos` on. */
  method StoreLe(out: array<Byte>, pos: nat, n: nat, v: int)
    requires pos + n <= out.Length
    modifies out
    ensures out[pos..pos + n] == Store(n, v)
    ensures forall k | 0 <= k < out.Length && !(pos <= k < pos + n) :: out[k] == old(out[k])
  {
    var bits: nat := v % Pow256(n);
    ghost var all := Le(n, bits);
    for i := 0 to n
      invariant all[i..] == Le(n - i, bits)
      invariant forall k | 0 <= k < i :: out[pos + k] == all[k]
      invariant forall k | 0 <= k < out.Length && !(pos <= k < pos + i) :: out[k] == old(out[k])
    {
      assert all[i] == all[i..][0] && all[i + 1..] == all[i..][1..];
      out[pos + i] := bits % 256;
      bits := bits / 256;
    }
  }

  /** Appends the whole batch to `out`: the covered fields first, since the checksum needs them. */
  method Encode(b: RecordBatch, table: array<Word>, out: seq<Byte>) returns (res: seq<Byte>)
    requires TableOk(table)
    ensures res == out + BatchBytes(b)
  {
    var hdr := new Byte[36](_ => 0);
    StoreTail(hdr, b.header);
    var crc := Checksum(table, hdr[16..], Zero());
    crc := Checksum(table, b.records, crc);
    StoreLead(hdr, b.header.baseOffset, Length(b), Value(crc));
    assert hdr[..] == hdr[..16] + hdr[16..];
    res := out + hdr[..];
    Assoc(out, hdr[..], b.records);
    res := res + b.records;
  }

  /** The fields the checksum covers. */
  method StoreTail(hdr: array<Byte>, h: BatchHeader)
    requires hdr.Length == 36
    modifies hdr
    ensures hdr[16..] == Tail(h)
  {
    StoreLe(hdr, 16, 2, h.attrs);
    StoreLe(hdr, 18, 8, h.producerId);
    StoreLe(hdr, 26, 2, h.producerEpoch);
    StoreLe(hdr, 28, 4, h.baseSequence);
    StoreLe(hdr, 32, 4, h.recordCount);
    TailAt(hdr[..], h);
  }

  /** The fields before them. */
  method StoreLead(hdr: array<Byte>, base: int, length: int, crc: int)
    requires hdr.Length == 36
    modifies hdr
    ensures hdr[..16] == Lead(base, length, crc) && hdr[16..] == old(hdr[16..])
  {
    StoreLe(hdr, 0, 8, base);
    StoreLe(hdr, 8, 4, length);
    StoreLe(hdr, 12, 4, crc);
    LeadAt(hdr[..], base, length, crc);
  }

  lemma TailAt(s: seq<Byte>, h: BatchHeader)
    requires |s| == 36
    requires s[16..18] == Store(2, h.attrs) && s[18..26] == Store(8, h.producerId)
    requires s[26..28] == Store(2, h.producerEpoch) && s[28..32] == Store(4, h.baseSequence)
    requires s[32..36] == Store(4, h.recordCount)
    ensures s[16..] == Tail(h)
  {
    assert s[16..] == s[16..18] + s[18..26] + s[26..28] + s[28..32] + s[32..36];
  }

  lemma LeadAt(s: seq<Byte>, base: int, length: int, crc: int)
    requires |s| == 36
    requires s[0..8] == Store(8, base) && s[8..12] == Store(4, length) && s[12..16] == Store(4, crc)
    ensures s[..16] == Lead(base, length, crc)
  {
    assert s[..16] == s[0..8] + s[8..12] + s[12..16];
  }

  // ---------------------------------------------------------------- reading

  function HeaderAt(data: seq<Byte>): BatchHeader
    requires |data| >= HEADER_SIZE
  {
    BatchHeader(Load(data[0..8]), FromLe(data[16..18]), Load(data[18..26]), Load(data[26..28]),
                Load(data[28..32]), Load(data[32..36]))
  }

  function Decode(data: seq<Byte>): Result<RecordBatch> {
    if |data| < HEADER_SIZE then Err(Corrupt)
    else
      var length := Load(data[8..12]);
      if length < 0 then Err(Corrupt)
      else
        var total := LENGTH_END + length;
        if total < HEADER_SIZE || total > |data| then Err(Corrupt)
        else if Value(Crc(data[16..total], Zero())) != FromLe(data[12..16]) then Err(Corrupt)
        else Ok(RecordBatch(HeaderAt(data), data[HEADER_SIZE..total]))
  }

  /** Base offset, record count and size on disk, without reading further. */
  function Peek(data: seq<Byte>): Result<(int, int, nat)> {
    if |data| < HEADER_SIZE then Err(Corrupt)
    else
      var length := Load(data[8..12]);
      if length < 0 then Err(Corrupt)
      else if LENGTH_END + length < HEADER_SIZE then Err(Corrupt)
      else Ok((Load(data[0..8]), Load(data[32..36]), LENGTH_END + length))
  }

  /** Codecs other than 0 are the business of `inflate`, which may refuse. */
  function RecordsOf(b: RecordBatch, inflate: (int, seq<Byte>) -> Result<seq<Byte>>): Result<seq<RawRecord>> {
    if b.header.recordCount < 0 then Err(Corrupt)
    else
      var codec := b.header.attrs % 4;
      var blob :- if codec == 0 then Ok(b.records) else inflate(codec, b.records);
      var rs :- Repeat(GetRecordAt(b.header.baseOffset), blob, b.header.recordCount, []);
      Ok(rs.0)
  }

  method DecodeRecords(b: RecordBatch, inflate: (int, seq<Byte>) -> Result<seq<Byte>>)
    returns (r: Result<seq<RawRecord>>)
    ensures r == RecordsOf(b, inflate)
  {
    if b.header.recordCount < 0 {
      return Err(Corrupt);
    }
    var blob := b.records;
    var codec := b.header.attrs % 4;
    if codec != 0 {
      var raw := inflate(codec, blob);
      if raw.Err? {
        return Err(raw.error);
      }
      blob := raw.value;
    }
    var rs := ReadAll(GetRecordAt(b.header.baseOffset), blob, b.header.recordCount);
    r := if rs.Err? then Err(rs.error) else Ok(rs.value.0);
  }

  // ---------------------------------------------------------------- building

  predicate AllEncodable(rs: seq<Record>) {
    forall i | 0 <= i < |rs| :: Encodable(rs[i], i)
  }

  function RecordParts(rs: seq<Record>): seq<seq<Byte>>
    requires AllEncodable(rs)
  {
    seq(|rs|, i requires 0 <= i < |rs| => RecordBytes(rs[i], i))
  }

  /** Uncompressed: the codec bits of the attributes are cleared. */
  function Built(h: BatchHeader, rs: seq<Record>): RecordBatch
    requires AllEncodable(rs)
  {
    RecordBatch(h.(recordCount := |rs|, attrs := h.attrs - h.attrs % 4), Concat(RecordParts(rs)))
  }

  method Build(h: BatchHeader, rs: seq<Record>) returns (b: RecordBatch)
    requires AllEncodable(rs)
    ensures b == Built(h, rs)
  {
    var records: seq<Byte> := [];
    var delta := 0;
    while delta < |rs|
      invariant delta <= |rs| && records == Concat(RecordParts(rs)[..delta])
    {
      assert RecordParts(rs)[..delta + 1][..delta] == RecordParts(rs)[..delta];
      records := EncodeRecord(rs[delta], delta, records);
      delta := delta + 1;
    }
    assert RecordParts(rs)[..|rs|] == RecordParts(rs);
    b := RecordBatch(h.(recordCount := |rs|, attrs := h.attrs - h.attrs % 4), records);
  }

  // ---------------------------------------------------------------- round trips

  /** Every field fits its slot, and the size fits the 32-bit length. */
  predicate InRange(b: RecordBatch) {
    var h := b.header;
    && Fits(8, h.baseOffset) && 0 <= h.attrs < Pow256(2) && Fits(8, h.producerId) && Fits(2, h.producerEpoch)
    && Fits(4, h.baseSequence) && Fits(4, h.recordCount) && Fits(4, Length(b))
  }

  lemma LeadBack(base: int, length: int, crc: nat)
    requires Fits(8, base) && Fits(4, length) && crc < Pow256(4)
    ensures var l := Lead(base, length, crc);
            Load(l[0..8]) == base && Load(l[8..12]) == length && FromLe(l[12..16]) == crc
  {
    var l := Lead(base, length, crc);
    assert l[0..8] == Store(8, base) && l[8..12] == Store(4, length) && l[12..16] == Store(4, crc);
    StoreRoundTrip(8, base);
    StoreRoundTrip(4, length);
    UnsignedRoundTrip(4, crc);
  }

  lemma TailSlots(h: BatchHeader)
    ensures var t := Tail(h);
            && t[0..2] == Store(2, h.attrs) && t[2..10] == Store(8, h.producerId)
            && t[10..12] == Store(2, h.producerEpoch) && t[12..16] == Store(4, h.baseSequence)
            && t[16..20] == Store(4, h.recordCount)
  {
  }

  lemma TailBack(b: RecordBatch)
    requires InRange(b)
    ensures var t, h := Tail(b.header), b.header;
            && FromLe(t[0..2]) == h.attrs && Load(t[2..10]) == h.producerId && Load(t[10..12]) == h.producerEpoch
            && Load(t[12..16]) == h.baseSequence && Load(t[16..20]) == h.recordCount
  {
    var h := b.header;
    TailSlots(h);
    UnsignedRoundTrip(2, h.attrs);
    StoreRoundTrip(8, h.producerId);
    StoreRoundTrip(2, h.producerEpoch);
    StoreRoundTrip(4, h.baseSequence);
    StoreRoundTrip(4, h.recordCount);
  }

  /** Where everything lies in an encoded batch with anything after it. */
  lemma Slots(b: RecordBatch, rest: seq<Byte>, data: seq<Byte>)
    requires data == BatchBytes(b) + rest
    ensures var n := 36 + |b.records|;
            && |data| >= n && data[..16] == Lead(b.header.baseOffset, Length(b), CrcOf(b))
            && data[16..36] == Tail(b.header) && data[36..n] == b.records
            && data[16..n] == Tail(b.header) + b.records
  {
  }

  lemma LeadSlots(data: seq<Byte>, l: seq<Byte>)
    requires |data| >= 36 && data[..16] == l
    ensures data[0..8] == l[0..8] && data[8..12] == l[8..12] && data[12..16] == l[12..16]
  {
  }

  lemma TailSlotsAt(data: seq<Byte>, t: seq<Byte>)
    requires |data| >= 36 && data[16..36] == t
    ensures data[16..18] == t[0..2] && data[18..26] == t[2..10] && data[26..28] == t[10..12]
    ensures data[28..32] == t[12..16] && data[32..36] == t[16..20]
  {
  }

  lemma HeaderBack(b: RecordBatch, data: seq<Byte>)
    requires InRange(b) && |data| >= 36
    requires data[..16] == Lead(b.header.baseOffset, Length(b), CrcOf(b)) && data[16..36] == Tail(b.header)
    ensures HeaderAt(data) == b.header && Load(data[8..12]) == Length(b) && FromLe(data[12..16]) == CrcOf(b)
  {
    WordBound(Crc(b.records, Crc(Tail(b.header), Zero())));
    LeadBack(b.header.baseOffset, Length(b), CrcOf(b));
    LeadSlots(data, Lead(b.header.baseOffset, Length(b), CrcOf(b)));
    TailBack(b);
    TailSlotsAt(data, Tail(b.header));
  }

  /** What was encoded decodes to itself, whatever follows it; the two ways of summing agree. */
  lemma BatchRoundTrip(b: RecordBatch, rest: seq<Byte>)
    requires InRange(b)
    ensures Decode(BatchBytes(b) + rest) == Ok(b)
    ensures Peek(BatchBytes(b) + rest) == Ok((b.header.baseOffset, b.header.recordCount, |BatchBytes(b)|))
  {
    var data := BatchBytes(b) + rest;
    Slots(b, rest, data);
    HeaderBack(b, data);
    CrcChains(Tail(b.header), b.records, Zero());
  }

  function RawAll(rs: seq<Record>, base: int): seq<RawRecord> {
    seq(|rs|, i requires 0 <= i < |rs| => Raw(rs[i], base + i))
  }

  predicate FewHeaders(rs: seq<Record>) {
    forall i | 0 <= i < |rs| :: |rs[i].headers| <= MAX_HEADERS
  }

  lemma PartBack(r: Record, i: nat, base: int, part: seq<Byte>, raw: RawRecord, rest: seq<Byte>)
    requires Encodable(r, i) && |r.headers| <= MAX_HEADERS
    requires part == RecordBytes(r, i) && raw == Raw(r, base + i)
    ensures GetRecordAt(base)(part + rest) == Ok((raw, rest))
  {
    RecordBack(r, i, base, rest);
  }

  lemma PartIs(rs: seq<Record>, base: int, i: nat)
    requires AllEncodable(rs) && i < |rs|
    ensures RecordParts(rs)[i] == RecordBytes(rs[i], i) && RawAll(rs, base)[i] == Raw(rs[i], base + i)
  {
  }

  lemma PartsReadBack(rs: seq<Record>, base: int)
    requires AllEncodable(rs) && FewHeaders(rs)
    ensures ReadsBack(GetRecordAt(base), RecordParts(rs), RawAll(rs, base))
  {
    var parts, raws := RecordParts(rs), RawAll(rs, base);
    forall i, rest | 0 <= i < |rs| ensures GetRecordAt(base)(parts[i] + rest) == Ok((raws[i], rest)) {
      PartIs(rs, base, i);
      PartBack(rs[i], i, base, parts[i], raws[i], rest);
    }
  }

  lemma BlobBack(rs: seq<Record>, base: int)
    requires AllEncodable(rs) && FewHeaders(rs)
    ensures Repeat(GetRecordAt(base), Concat(RecordParts(rs)), |rs|, []) == Ok((RawAll(rs, base), []))
  {
    PartsReadBack(rs, base);
    RepeatBack(GetRecordAt(base), RecordParts(rs), RawAll(rs, base), [], []);
    assert Concat(RecordParts(rs)) + [] == Concat(RecordParts(rs)) && [] + RawAll(rs, base) == RawAll(rs, base);
  }

  lemma PlainRecords(b: RecordBatch, inflate: (int, seq<Byte>) -> Result<seq<Byte>>, raws: seq<RawRecord>)
    requires b.header.recordCount >= 0 && b.header.attrs % 4 == 0
    requires Repeat(GetRecordAt(b.header.baseOffset), b.records, b.header.recordCount, []) == Ok((raws, []))
    ensures RecordsOf(b, inflate) == Ok(raws)
  {
  }

  lemma BuiltIsPlain(h: BatchHeader, rs: seq<Record>)
    requires AllEncodable(rs)
    ensures Built(h, rs).header.attrs % 4 == 0
  {
  }

  /** A built batch gives its records back in order, at offsets base, base + 1, ... */
  lemma RecordsRoundTrip(h: BatchHeader, rs: seq<Record>, inflate: (int, seq<Byte>) -> Result<seq<Byte>>)
    requires AllEncodable(rs) && FewHeaders(rs)
    ensures RecordsOf(Built(h, rs), inflate) == Ok(RawAll(rs, h.baseOffset))
  {
    BuiltIsPlain(h, rs);
    BlobBack(rs, h.baseOffset);
    PlainRecords(Built(h, rs), inflate, RawAll(rs, h.baseOffset));
  }

  /**
    With a codec in the attributes, the records are those of what the blob inflates to, and if it does not
    inflate, that error; without one nothing is inflated.
   */
  lemma CompressedRoundTrip(h: BatchHeader, rs: seq<Record>, blob: seq<Byte>, inflate: (int, seq<Byte>) -> Result<seq<Byte>>)
    requires AllEncodable(rs) && FewHeaders(rs) && h.recordCount == |rs| && h.attrs % 4 != 0
    ensures inflate(h.attrs % 4, blob) == Ok(Concat(RecordParts(rs))) ==>
              RecordsOf(RecordBatch(h, blob), inflate) == Ok(RawAll(rs, h.baseOffset))
    ensures inflate(h.attrs % 4, blob).Err? ==>
              RecordsOf(RecordBatch(h, blob), inflate) == Err(inflate(h.attrs % 4, blob).error)
  {
    BlobBack(rs, h.baseOffset);
  }

  /** From records to bytes and back, through the checksum and whatever follows the batch. */
  lemma BuildRoundTrip(h: BatchHeader, rs: seq<Record>, rest: seq<Byte>, inflate: (int, seq<Byte>) -> Result<seq<Byte>>)
    requires AllEncodable(rs) && FewHeaders(rs) && InRange(Built(h, rs))
    ensures Decode(BatchBytes(Built(h, rs)) + rest) == Ok(Built(h, rs))
    ensures RecordsOf(Decode(BatchBytes(Built(h, rs)) + rest).value, inflate) == Ok(RawAll(rs, h.baseOffset))
  {
    BatchRoundTrip(Built(h, rs), rest);
    RecordsRoundTrip(h, rs, inflate);
  }
}
