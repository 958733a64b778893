/** Exactly the encodings of batches decode, and damage to one is noticed. */
module BatchIntegrity {
  import opened Results
  import opened Bytes
  import opened Crc32c
  import opened CrcDetection
  import opened RecordBatches

  // ---------------------------------------------------------------- what decodes

  lemma TailOfHeader(data: seq<Byte>)
    requires |data| >= HEADER_SIZE
    ensures Tail(HeaderAt(data)) == data[16..36]
  {
    UnsignedBack(data[16..18]);
    LoadBack(data[18..26]);
    LoadBack(data[26..28]);
    LoadBack(data[28..32]);
    LoadBack(data[32..36]);
    assert data[16..36] == data[16..18] + data[18..26] + data[26..28] + data[28..32] + data[32..36];
  }

  lemma LeadOfHeader(data: seq<Byte>)
    requires |data| >= HEADER_SIZE
    ensures Lead(Load(data[0..8]), Load(data[8..12]), FromLe(data[12..16])) == data[..16]
  {
    LoadBack(data[0..8]);
    LoadBack(data[8..12]);
    UnsignedBack(data[12..16]);
    assert data[..16] == data[0..8] + data[8..12] + data[12..16];
  }

  lemma FieldsFit(data: seq<Byte>)
    requires |data| >= HEADER_SIZE
    ensures var h := HeaderAt(data);
            && Fits(8, h.baseOffset) && 0 <= h.attrs < Pow256(2) && Fits(8, h.producerId) && Fits(2, h.producerEpoch)
            && Fits(4, h.baseSequence) && Fits(4, h.recordCount) && Fits(4, Load(data[8..12]))
  {
    LoadBack(data[0..8]);
    LoadBack(data[8..12]);
    UnsignedBack(data[16..18]);
    LoadBack(data[18..26]);
    LoadBack(data[26..28]);
    LoadBack(data[28..32]);
    LoadBack(data[32..36]);
  }

  lemma Covered(data: seq<Byte>, total: nat)
    requires HEADER_SIZE <= total <= |data|
    ensures data[16..total] == data[16..36] + data[36..total]
    ensures data[..total] == data[..16] + data[16..36] + data[36..total]
  {
  }

  lemma DecodedBytes(data: seq<Byte>)
    requires Decode(data).Ok?
    ensures InRange(Decode(data).value) && BatchBytes(Decode(data).value) <= data
  {
    var b, total := Decode(data).value, LENGTH_END + Load(data[8..12]);
    Covered(data, total);
    TailOfHeader(data);
    LeadOfHeader(data);
    FieldsFit(data);
    CrcChains(data[16..36], data[36..total], Zero());
    assert BatchBytes(b) == data[..total];
  }

  lemma Splits(a: seq<Byte>, data: seq<Byte>)
    requires a <= data
    ensures data == a + data[|a|..]
  {
  }

  /** Bytes decode to a batch if and only if they begin with its encoding; all else is corrupt. */
  lemma DecodeIff(data: seq<Byte>, b: RecordBatch)
    ensures Decode(data) == Ok(b) <==> InRange(b) && BatchBytes(b) <= data
    ensures Decode(data).Ok? || Decode(data) == Err(Corrupt)
  {
    if Decode(data).Ok? {
      DecodedBytes(data);
    }
    if InRange(b) && BatchBytes(b) <= data {
      Splits(BatchBytes(b), data);
      BatchRoundTrip(b, data[|BatchBytes(b)|..]);
    }
  }

  // ---------------------------------------------------------------- damage

  /** The checksum as the four bytes at 12, and everything after them. */
  lemma Parts(b: RecordBatch)
    ensures BatchBytes(b) == Store(8, b.header.baseOffset) + Store(4, Length(b)) + Store(4, CrcOf(b)) +
                             (Tail(b.header) + b.records)
    ensures CrcOf(b) == Value(Crc(Tail(b.header) + b.records, Zero()))
  {
    CrcChains(Tail(b.header), b.records, Zero());
  }

  /** Bytes that start like those of `b`, with `sum` for its checksum and `body` for what it covers. */
  predicate Resembles(data: seq<Byte>, b: RecordBatch, sum: seq<Byte>, body: seq<Byte>) {
    && |sum| == 4 && |body| == |Tail(b.header) + b.records|
    && data == Store(8, b.header.baseOffset) + Store(4, Length(b)) + sum + body
  }

  lemma SlotsOf(data: seq<Byte>, rest: seq<Byte>, b: RecordBatch, sum: seq<Byte>, body: seq<Byte>)
    requires InRange(b) && Resembles(data, b, sum, body)
    ensures var d := data + rest;
            && |d| >= 36 && |data| == LENGTH_END + Length(b) && Load(d[8..12]) == Length(b)
            && d[12..16] == sum && d[16..|data|] == body
  {
    var d := data + rest;
    assert d[8..12] == Store(4, Length(b));
    StoreRoundTrip(4, Length(b));
  }

  lemma SumDecides(data: seq<Byte>, rest: seq<Byte>, b: RecordBatch, sum: seq<Byte>, body: seq<Byte>)
    requires InRange(b) && Resembles(data, b, sum, body)
    ensures Decode(data + rest).Ok? <==> Value(Crc(body, Zero())) == FromLe(sum)
  {
    SlotsOf(data, rest, b, sum, body);
  }

  /** Any other stored checksum is refused. */
  lemma DamagedSumIsRefused(b: RecordBatch, sum: seq<Byte>, data: seq<Byte>, rest: seq<Byte>)
    requires InRange(b) && Resembles(data, b, sum, Tail(b.header) + b.records) && sum != Store(4, CrcOf(b))
    ensures Decode(data + rest) == Err(Corrupt)
  {
    Parts(b);
    UnsignedBack(sum);
    SumDecides(data, rest, b, sum, Tail(b.header) + b.records);
  }

  /** And so is any change of what it covers that stays within four bytes in a row. */
  lemma DamagedBodyIsRefused(b: RecordBatch, pre: seq<Byte>, was: seq<Byte>, now: seq<Byte>, post: seq<Byte>,
                             data: seq<Byte>, rest: seq<Byte>)
    requires InRange(b) && Tail(b.header) + b.records == pre + was + post
    requires |was| == |now| <= 4 && was != now
    requires Resembles(data, b, Store(4, CrcOf(b)), pre + now + post)
    ensures Decode(data + rest) == Err(Corrupt)
  {
    var sum := Crc(pre + was + post, Zero());
    Parts(b);
    WordBound(sum);
    UnsignedRoundTrip(4, CrcOf(b));
    SumDecides(data, rest, b, Store(4, CrcOf(b)), pre + now + post);
    BurstChangesCrc(pre, was, now, post, Zero());
    if Value(Crc(pre + now + post, Zero())) == Value(sum) {
      SameValue(Crc(pre + now + post, Zero()), sum);
    }
  }

  // ---------------------------------------------------------------- one byte

  lemma SumByte(b: RecordBatch, i: nat, v: Byte)
    requires 12 <= i < 16 && v != BatchBytes(b)[i]
    ensures var sum := Store(4, CrcOf(b));
            sum[i - 12 := v] != sum &&
            Resembles(BatchBytes(b)[i := v], b, sum[i - 12 := v], Tail(b.header) + b.records)
  {
    Parts(b);
    var sum := Store(4, CrcOf(b));
    assert BatchBytes(b)[i] == sum[i - 12];
    assert sum[i - 12 := v][i - 12] == v;
  }

  lemma BodyByte(b: RecordBatch, i: nat, v: Byte)
    requires 16 <= i < |BatchBytes(b)| && v != BatchBytes(b)[i]
    ensures var body, k := Tail(b.header) + b.records, i - 16;
            && k < |body| && body[k] == BatchBytes(b)[i]
            && Resembles(BatchBytes(b)[i := v], b, Store(4, CrcOf(b)), body[k := v])
  {
    Parts(b);
  }

  lemma Cut(s: seq<Byte>, k: nat, v: Byte)
    requires k < |s|
    ensures s == s[..k] + [s[k]] + s[k + 1..] && s[k := v] == s[..k] + [v] + s[k + 1..]
  {
  }

  /** One wrong byte anywhere from the checksum on, and the batch is refused. */
  lemma WrongByteIsRefused(b: RecordBatch, i: nat, v: Byte, rest: seq<Byte>)
    requires InRange(b) && 12 <= i < |BatchBytes(b)| && v != BatchBytes(b)[i]
    ensures Decode(BatchBytes(b)[i := v] + rest) == Err(Corrupt)
  {
    var data := BatchBytes(b)[i := v];
    if i < 16 {
      SumByte(b, i, v);
      DamagedSumIsRefused(b, Store(4, CrcOf(b))[i - 12 := v], data, rest);
    } else {
      var body, k := Tail(b.header) + b.records, i - 16;
      BodyByte(b, i, v);
      Cut(body, k, v);
      DamagedBodyIsRefused(b, body[..k], [body[k]], [v], body[k + 1..], data, rest);
    }
  }

  lemma BaseByte(b: RecordBatch, i: nat, v: Byte, base: int)
    requires i < 8 && base == Load(Store(8, b.header.baseOffset)[i := v])
    ensures BatchBytes(b)[i := v] == BatchBytes(b.(header := b.header.(baseOffset := base)))
    ensures Fits(8, base)
  {
    LoadBack(Store(8, b.header.baseOffset)[i := v]);
  }

  /** The base offset alone is not covered: damaged, it decodes to the same batch at another offset. */
  lemma WrongBaseIsAccepted(b: RecordBatch, i: nat, v: Byte, rest: seq<Byte>)
    requires InRange(b) && i < 8
    ensures var base := Load(Store(8, b.header.baseOffset)[i := v]);
            Decode(BatchBytes(b)[i := v] + rest) == Ok(b.(header := b.header.(baseOffset := base)))
  {
    var base := Load(Store(8, b.header.baseOffset)[i := v]);
    BaseByte(b, i, v, base);
    BatchRoundTrip(b.(header := b.header.(baseOffset := base)), rest);
  }
}
