/** Records inside a batch: lengths and deltas as zigzag varints, absent fields as length -1. */
module RecordCodec {
  import opened Common
  import opened RaftTypes
  import opened Results
  import opened Bytes
  import opened Varint
  import opened Framing

  /** Bytes held in memory: their count always fits a signed 64-bit length. */
  type Blob = b: seq<Byte> | |b| < 0x8000_0000_0000_0000

  datatype Header = Header(key: Blob, value: Option<Blob>)

  datatype Record = Record(
    key: Option<Blob>, value: Option<Blob>, headers: seq<Header>, timestampDelta: int, offset: int)

  const MAX_HEADERS: nat := 10_000

  // ---------------------------------------------------------------- layout

  function Zig(v: int): seq<Byte>
    requires IsInt64(v)
  {
    Encoded(Zigzag(v))
  }

  function NullableBytes(f: Option<Blob>): seq<Byte> {
    if f.None? then Zig(-1) else Zig(|f.value|) + f.value
  }

  function HeaderBytes(h: Header): seq<Byte> {
    Zig(|h.key|) + h.key + NullableBytes(h.value)
  }

  function HeaderParts(hs: seq<Header>): seq<seq<Byte>> {
    seq(|hs|, i requires 0 <= i < |hs| => HeaderBytes(hs[i]))
  }

  function HeadersBytes(hs: seq<Header>): seq<Byte> {
    Concat(HeaderParts(hs))
  }

  /** The parts whose size the format can express. */
  predicate Sized(r: Record) {
    IsInt64(r.timestampDelta) && |r.headers| < 0x8000_0000_0000_0000
  }

  function StampBytes(ts: int, delta: int): seq<Byte>
    requires IsInt64(ts) && IsInt64(delta)
  {
    [0] + Zig(ts) + Zig(delta)
  }

  function FieldsBytes(r: Record): seq<Byte>
    requires Sized(r)
  {
    NullableBytes(r.key) + NullableBytes(r.value) + Zig(|r.headers|)
  }

  function BodyBytes(r: Record, delta: int): seq<Byte>
    requires Sized(r) && IsInt64(delta)
  {
    StampBytes(r.timestampDelta, delta) + FieldsBytes(r) + HeadersBytes(r.headers)
  }

  predicate Encodable(r: Record, delta: int) {
    Sized(r) && IsInt64(delta) && |BodyBytes(r, delta)| < 0x8000_0000_0000_0000
  }

  function RecordBytes(r: Record, delta: int): seq<Byte>
    requires Encodable(r, delta)
  {
    Zig(|BodyBytes(r, delta)|) + BodyBytes(r, delta)
  }

  method EncodeRecord(r: Record, delta: int, out: seq<Byte>) returns (res: seq<Byte>)
    requires Encodable(r, delta)
    ensures res == out + RecordBytes(r, delta)
  {
    var body := StampBytes(r.timestampDelta, delta);
    body := body + FieldsBytes(r);
    body := AppendAll(HeaderParts(r.headers), body);
    res := out + Zig(|body|);
    Assoc(out, Zig(|body|), body);
    res := res + body;
  }

  // ---------------------------------------------------------------- reading

  function GetZig(s: seq<Byte>): Result<(int, seq<Byte>)> {
    match Decoded(s)
    case None => Err(InvalidArgument)
    case Some((u, rest)) => Ok((Unzigzag(u), rest))
  }

  function Take(s: seq<Byte>, n: nat): Result<(seq<Byte>, seq<Byte>)> {
    if n > |s| then Err(Corrupt) else Ok((s[..n], s[n..]))
  }

  function GetNullable(s: seq<Byte>): Result<(Option<seq<Byte>>, seq<Byte>)> {
    var len :- GetZig(s);
    if len.0 < 0 then Ok((None, len.1))
    else
      var bytes :- Take(len.1, len.0);
      Ok((Some(bytes.0), bytes.1))
  }

  /** A header as read: nothing bounds its parts but the input. */
  datatype RawHeader = RawHeader(key: seq<Byte>, value: Option<seq<Byte>>)

  datatype RawRecord = RawRecord(
    key: Option<seq<Byte>>, value: Option<seq<Byte>>, headers: seq<RawHeader>, timestampDelta: int, offset: int)

  function GetHeader(s: seq<Byte>): Result<(RawHeader, seq<Byte>)> {
    var len := GetZig(s);
    if len.Err? || len.value.0 < 0 then Err(Corrupt)
    else
      var key :- Take(len.value.1, len.value.0);
      var value :- GetNullable(key.1);
      Ok((RawHeader(key.0, value.0), value.1))
  }

  /** Timestamp and offset deltas, after the reserved attribute byte. */
  function GetStamp(s: seq<Byte>): Result<((int, int), seq<Byte>)> {
    var attrs :- Take(s, 1);
    var ts :- GetZig(attrs.1);
    var delta :- GetZig(ts.1);
    Ok(((ts.0, delta.0), delta.1))
  }

  /** Key, value and how many headers follow. */
  function GetFields(s: seq<Byte>): Result<((Option<seq<Byte>>, Option<seq<Byte>>, nat), seq<Byte>)> {
    var key :- GetNullable(s);
    var value :- GetNullable(key.1);
    var count :- GetZig(value.1);
    if count.0 < 0 || count.0 > MAX_HEADERS then Err(Corrupt)
    else Ok(((key.0, value.0, count.0), count.1))
  }

  function GetBody(s: seq<Byte>): Result<(seq<Byte>, seq<Byte>)> {
    var len :- GetZig(s);
    if len.0 < 0 then Err(Corrupt) else Take(len.1, len.0)
  }

  /** The record in a body; bytes left over in it are ignored. */
  function GetContent(body: seq<Byte>, base: int): Result<RawRecord> {
    var stamp :- GetStamp(body);
    var fields :- GetFields(stamp.1);
    var hs :- Repeat(GetHeader, fields.1, fields.0.2, []);
    Ok(RawRecord(fields.0.0, fields.0.1, hs.0, stamp.0.0, base + stamp.0.1))
  }

  /** The record at the front of `s` and what follows it. */
  function GetRecord(s: seq<Byte>, base: int): Result<(RawRecord, seq<Byte>)> {
    var body :- GetBody(s);
    var rec :- GetContent(body.0, base);
    Ok((rec, body.1))
  }

  function GetRecordAt(base: int): seq<Byte> -> Result<(RawRecord, seq<Byte>)> {
    s => GetRecord(s, base)
  }

  // ---------------------------------------------------------------- what was written is read back

  function RawH(h: Header): RawHeader {
    RawHeader(h.key, h.value)
  }

  function RawHs(hs: seq<Header>): seq<RawHeader> {
    seq(|hs|, i requires 0 <= i < |hs| => RawH(hs[i]))
  }

  /** The record as a reader sees it at offset `at`. */
  function Raw(r: Record, at: int): RawRecord {
    RawRecord(r.key, r.value, RawHs(r.headers), r.timestampDelta, at)
  }

  lemma ZigBack(v: int, rest: seq<Byte>)
    requires IsInt64(v)
    ensures GetZig(Zig(v) + rest) == Ok((v, rest))
  {
    ZigzagRoundTrip(v);
    VarintRoundTrip(Zigzag(v), rest);
  }

  lemma TakeBack(a: seq<Byte>, rest: seq<Byte>)
    ensures Take(a + rest, |a|) == Ok((a, rest))
  {
  }

  lemma NullableBack(f: Option<Blob>, rest: seq<Byte>)
    ensures GetNullable(NullableBytes(f) + rest) == Ok((f, rest))
  {
    if f.None? {
      ZigBack(-1, rest);
    } else {
      ZigBack(|f.value|, f.value + rest);
      assert NullableBytes(f) + rest == Zig(|f.value|) + (f.value + rest);
      TakeBack(f.value, rest);
    }
  }

  lemma Nest(a: seq<Byte>, b: seq<Byte>, c: seq<Byte>, d: seq<Byte>)
    ensures a + b + c + d == a + (b + (c + d))
  {
  }

  lemma HeaderBack(h: Header, rest: seq<Byte>)
    ensures GetHeader(HeaderBytes(h) + rest) == Ok((RawH(h), rest))
  {
    var tail := NullableBytes(h.value) + rest;
    ZigBack(|h.key|, h.key + tail);
    Nest(Zig(|h.key|), h.key, NullableBytes(h.value), rest);
    TakeBack(h.key, tail);
    NullableBack(h.value, rest);
  }

  lemma HeadersBack(hs: seq<Header>, rest: seq<Byte>)
    ensures Repeat(GetHeader, HeadersBytes(hs) + rest, |hs|, []) == Ok((RawHs(hs), rest))
  {
    forall i, rest | 0 <= i < |hs| ensures GetHeader(HeaderParts(hs)[i] + rest) == Ok((RawHs(hs)[i], rest)) {
      HeaderBack(hs[i], rest);
    }
    RepeatBack(GetHeader, HeaderParts(hs), RawHs(hs), rest, []);
    assert [] + RawHs(hs) == RawHs(hs);
  }

  lemma StampBack(ts: int, delta: int, rest: seq<Byte>)
    requires IsInt64(ts) && IsInt64(delta)
    ensures GetStamp(StampBytes(ts, delta) + rest) == Ok(((ts, delta), rest))
  {
    var s2 := Zig(delta) + rest;
    var s1 := Zig(ts) + s2;
    assert StampBytes(ts, delta) + rest == [0] + s1;
    TakeBack([0], s1);
    ZigBack(ts, s2);
    ZigBack(delta, rest);
  }

  lemma FieldsBack(r: Record, rest: seq<Byte>)
    requires Sized(r) && |r.headers| <= MAX_HEADERS
    ensures GetFields(FieldsBytes(r) + rest) == Ok(((r.key, r.value, |r.headers|), rest))
  {
    var s2 := Zig(|r.headers|) + rest;
    var s1 := NullableBytes(r.value) + s2;
    assert FieldsBytes(r) + rest == NullableBytes(r.key) + s1;
    NullableBack(r.key, s1);
    NullableBack(r.value, s2);
    ZigBack(|r.headers|, rest);
  }

  lemma ContentOf(body: seq<Byte>, base: int, ts: int, delta: int, s1: seq<Byte>,
                  key: Option<seq<Byte>>, value: Option<seq<Byte>>, n: nat, s2: seq<Byte>,
                  hs: seq<RawHeader>, s3: seq<Byte>)
    requires GetStamp(body) == Ok(((ts, delta), s1))
    requires GetFields(s1) == Ok(((key, value, n), s2))
    requires Repeat(GetHeader, s2, n, []) == Ok((hs, s3))
    ensures GetContent(body, base) == Ok(RawRecord(key, value, hs, ts, base + delta))
  {
  }

  lemma ContentBack(r: Record, delta: int, base: int)
    requires Sized(r) && IsInt64(delta) && |r.headers| <= MAX_HEADERS
    ensures GetContent(BodyBytes(r, delta), base) == Ok(Raw(r, base + delta))
  {
    var ts, hs := r.timestampDelta, HeadersBytes(r.headers);
    var stamp, fields := StampBytes(ts, delta), FieldsBytes(r);
    Assoc(stamp, fields, hs);
    StampBack(ts, delta, fields + hs);
    FieldsBack(r, hs);
    assert hs + [] == hs;
    HeadersBack(r.headers, []);
    ContentOf(stamp + (fields + hs), base, ts, delta, fields + hs, r.key, r.value, |r.headers|, hs, RawHs(r.headers), []);
  }

  lemma BodyBack(body: Blob, rest: seq<Byte>)
    ensures GetBody(Zig(|body|) + body + rest) == Ok((body, rest))
  {
    ZigBack(|body|, body + rest);
    Assoc(Zig(|body|), body, rest);
    TakeBack(body, rest);
  }

  /** A record reads back as it was written, at its offset, and the cursor stops right after it. */
  lemma RecordBack(r: Record, delta: int, base: int, rest: seq<Byte>)
    requires Encodable(r, delta) && |r.headers| <= MAX_HEADERS
    ensures GetRecord(RecordBytes(r, delta) + rest, base) == Ok((Raw(r, base + delta), rest))
  {
    BodyBack(BodyBytes(r, delta), rest);
    ContentBack(r, delta, base);
  }

  // ---------------------------------------------------------------- what is refused

  lemma FieldsRefused(r: Record, rest: seq<Byte>)
    requires Sized(r) && |r.headers| > MAX_HEADERS
    ensures GetFields(FieldsBytes(r) + rest) == Err(Corrupt)
  {
    var s2 := Zig(|r.headers|) + rest;
    var s1 := NullableBytes(r.value) + s2;
    assert FieldsBytes(r) + rest == NullableBytes(r.key) + s1;
    NullableBack(r.key, s1);
    NullableBack(r.value, s2);
    ZigBack(|r.headers|, rest);
  }

  /** With more headers than the limit a record does not read back: it is corrupt. */
  lemma TooManyHeaders(r: Record, delta: int, base: int, rest: seq<Byte>)
    requires Encodable(r, delta) && |r.headers| > MAX_HEADERS
    ensures GetRecord(RecordBytes(r, delta) + rest, base) == Err(Corrupt)
  {
    var ts, hs := r.timestampDelta, HeadersBytes(r.headers);
    var stamp, fields := StampBytes(ts, delta), FieldsBytes(r);
    BodyBack(BodyBytes(r, delta), rest);
    Assoc(stamp, fields, hs);
    StampBack(ts, delta, fields + hs);
    FieldsRefused(r, hs);
  }

  lemma {:induction false} CutStops(v: nat, k: nat)
    requires k < |Encoded(v)|
    ensures Stop(Encoded(v)[..k]) == k
  {
    if k > 0 {
      CutStops(v / 128, k - 1);
      assert Encoded(v)[..k][1..] == Encoded(v / 128)[..k - 1];
    }
  }

  lemma CutLength(v: int, k: nat)
    requires IsInt64(v) && k < |Zig(v)|
    ensures GetZig(Zig(v)[..k]).Err?
  {
    CutStops(Zigzag(v), k);
    DecodedIs(Zig(v)[..k]);
  }

  lemma CutBody(body: Blob, k: nat)
    requires k < |Zig(|body|) + body|
    ensures GetBody((Zig(|body|) + body)[..k]).Err?
  {
    var z := Zig(|body|);
    var s := (z + body)[..k];
    if k < |z| {
      assert s == z[..k];
      CutLength(|body|, k);
    } else {
      assert s == z + body[..k - |z|];
      ZigBack(|body|, body[..k - |z|]);
    }
  }

  /** A record cut short anywhere is refused. */
  lemma CutRecord(r: Record, delta: int, base: int, k: nat)
    requires Encodable(r, delta) && k < |RecordBytes(r, delta)|
    ensures GetRecord(RecordBytes(r, delta)[..k], base).Err?
  {
    CutBody(BodyBytes(r, delta), k);
  }
}
