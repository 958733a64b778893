/**
  The replicated log over a partition log: metadata of the live entries, the snapshot base, and the
  two sidecar files that hold them. `View` is what it stands for.
 */
module RaftLogs {
  import opened RaftTypes
  import opened Results
  import opened Bytes
  import opened PartitionLogs
  import opened Sidecar
  import LogView

  /** A live entry: its metadata, with the batch the partition log keeps for it. */
  function EntryOf(m: EntryMeta, s: Stored): LogEntry
    requires m.term >= 0
  {
    LogEntry(m.term, m.kind, s.batch)
  }

  predicate Describes(m: EntryMeta, s: Stored) {
    m.term >= 0 && m.base == s.base && m.last == EndOf(s) - 1
  }

  /** The metadata describes the last batches of the partition log, one each. */
  predicate Mirrors(es: seq<EntryMeta>, bs: seq<Stored>) {
    |es| <= |bs| && forall k | 0 <= k < |es| :: Describes(es[k], bs[|bs| - |es| + k])
  }

  function Live(es: seq<EntryMeta>, bs: seq<Stored>): Log
    requires Mirrors(es, bs)
  {
    seq(|es|, k requires 0 <= k < |es| => EntryOf(es[k], bs[|bs| - |es| + k]))
  }

  /** The offset right after the first `k` live entries of a log that starts at `origin`. */
  lemma {:induction false} OffsetAfter(es: seq<EntryMeta>, bs: seq<Stored>, start: int, end: int, origin: int, k: nat)
    requires Tiles(bs, start, end) && Mirrors(es, bs) && k <= |es|
    requires origin == if es == [] then end else es[0].base
    ensures origin + LogView.Width(Live(es, bs)[..k]) == if k == |es| then end else es[k].base
  {
    if k > 0 {
      OffsetAfter(es, bs, start, end, origin, k - 1);
      assert Live(es, bs)[..k][..k - 1] == Live(es, bs)[..k - 1];
      assert Describes(es[k - 1], bs[|bs| - |es| + k - 1]);
    }
  }

  ghost predicate Collects(v: LogView.View, i: nat, res: seq<WireEntry>) {
    i >= 1 && forall k | 0 <= k < |res| :: i + k <= |v.hist| && res[k] == LogView.Wire(v.hist, i + k)
  }

  lemma CollectsOne(v: LogView.View, i: nat, res: seq<WireEntry>, e: WireEntry)
    requires Collects(v, i, res) && i + |res| <= |v.hist| && e == LogView.Wire(v.hist, i + |res|)
    ensures Collects(v, i, res + [e])
  {
  }

  /** Collecting entries one by one until `max` or the end is `EntriesFrom`. */
  lemma Collected(v: LogView.View, i: nat, max: nat, res: seq<WireEntry>)
    requires i > v.snap && |res| <= max && Collects(v, i, res)
    requires |res| == max || i + |res| > |v.hist|
    ensures LogView.EntriesFrom(v, i, max) == Some(res)
  {
    if res != [] {
      assert res[|res| - 1].index == i + (|res| - 1);
    }
    assert LogView.EntriesFrom(v, i, max).value == res;
  }

  // ---------------------------------------------------------------- the state as a value

  /** The live entries start right after the base, and the base remembers where and in what term. */
  ghost predicate Coherent(es: seq<EntryMeta>, base: Base, below: Log, bs: seq<Stored>, start: int, end: int) {
    && Tiles(bs, start, end)
    && Mirrors(es, bs)
    && |below| == base.index
    && base.term == (if base.index == 0 then 0 else below[base.index - 1].term)
    && (if base.index == 0 then base.last == 0 && |es| == |bs| else First(es, end) == base.last + 1)
  }

  /** Offset of the first live entry, or where it will go. */
  function First(es: seq<EntryMeta>, end: int): int {
    if es == [] then end else es[0].base
  }

  ghost function ViewOf(es: seq<EntryMeta>, base: Base, below: Log, bs: seq<Stored>, start: int, end: int): LogView.View
    requires Coherent(es, base, below, bs, start, end)
  {
    LogView.RawView(below + Live(es, bs), base.index, First(es, end))
  }

  lemma AppendKeeps(es: seq<EntryMeta>, base: Base, below: Log, bs: seq<Stored>, start: int, end: int, e: WireEntry)
    requires Coherent(es, base, below, bs, start, end)
    ensures var m := EntryMeta(e.term, end, end + e.batch.count - 1, e.kind);
            var es', bs', end' := es + [m], bs + [Stored(end, e.batch)], end + e.batch.count;
            && Coherent(es', base, below, bs', start, end')
            && ViewOf(es', base, below, bs', start, end') ==
               LogView.Append(ViewOf(es, base, below, bs, start, end), [e])
  {
    var m, b := EntryMeta(e.term, end, end + e.batch.count - 1, e.kind), Stored(end, e.batch);
    LiveGrows(es, bs, m, b);
    assert below + (Live(es, bs) + [EntryOf(m, b)]) == below + Live(es, bs) + LogView.Unwired([e]);
  }

  lemma TruncateKeeps(es: seq<EntryMeta>, base: Base, below: Log, bs: seq<Stored>, start: int, end: int, k: nat,
                      bs': seq<Stored>)
    requires Coherent(es, base, below, bs, start, end) && k < |es|
    requires bs' <= bs && Tiles(bs', start, es[k].base) && forall b | b in bs' :: b.base < es[k].base
    ensures Coherent(es[..k], base, below, bs', start, es[k].base)
    ensures Some(ViewOf(es[..k], base, below, bs', start, es[k].base)) ==
            LogView.TruncateFrom(ViewOf(es, base, below, bs, start, end), base.index + k + 1)
  {
    assert Describes(es[k], bs[|bs| - |es| + k]);
    CutIs(bs, bs', start, end, |bs| - |es| + k);
    LiveCut(es, bs, k);
    assert below + Live(es, bs)[..k] == (below + Live(es, bs))[..base.index + k];
  }

  /** Dropping a prefix of the batches that ends before the live entries start. */
  lemma TrimIsShort(es: seq<EntryMeta>, bs: seq<Stored>, start: int, end: int, k: nat, d: nat)
    requires Tiles(bs, start, end) && Mirrors(es, bs) && k < |es|
    requires d == 0 || (d < |bs| && bs[d].base <= es[k].last + 1)
    ensures d <= |bs| - |es| + k + 1
  {
    var q := |bs| - |es| + k;
    assert Describes(es[k], bs[q]);
    if q < d {
      TilesAscend(bs, start, end, q, d);
      assert bs[d].base == EndOf(bs[q]);
      if q + 1 < d {
        TilesAscend(bs, start, end, q + 1, d);
      }
    }
  }

  lemma LiveTrim(es: seq<EntryMeta>, bs: seq<Stored>, k: nat, d: nat)
    requires Mirrors(es, bs) && k <= |es| && d <= |bs| - |es| + k
    ensures Mirrors(es[k..], bs[d..]) && Live(es[k..], bs[d..]) == Live(es, bs)[k..]
  {
    var es', bs' := es[k..], bs[d..];
    forall j | 0 <= j < |es'| ensures Describes(es'[j], bs'[|bs'| - |es'| + j]) {
      assert Describes(es[k + j], bs[|bs| - |es| + (k + j)]);
    }
  }

  /** A live entry ends where the next one, or the log, goes on. */
  lemma EndsAtNext(es: seq<EntryMeta>, bs: seq<Stored>, start: int, end: int, k: nat)
    requires Tiles(bs, start, end) && Mirrors(es, bs) && k < |es|
    ensures es[k].term >= 0 && First(es[k + 1..], end) == es[k].last + 1
  {
    var q := |bs| - |es| + k;
    assert Describes(es[k], bs[q]);
    if k + 1 < |es| {
      assert Describes(es[k + 1], bs[|bs| - |es| + (k + 1)]);
    }
  }

  /** What compaction up to slot `k` leaves. */
  function BaseAt(es: seq<EntryMeta>, base: Base, k: nat): Base
    requires k < |es|
  {
    Base(base.index + k + 1, es[k].term, es[k].last)
  }

  ghost predicate Trims(es: seq<EntryMeta>, bs: seq<Stored>, k: nat, d: nat)
    requires k < |es|
  {
    d <= |bs| && (d == 0 || (d < |bs| && bs[d].base <= es[k].last + 1))
  }

  lemma CompactCoherent(es: seq<EntryMeta>, base: Base, below: Log, bs: seq<Stored>, start: int, end: int,
                        k: nat, d: nat, start': int)
    requires Coherent(es, base, below, bs, start, end) && k < |es| && Trims(es, bs, k, d)
    requires Tiles(bs[d..], start', end)
    ensures Coherent(es[k + 1..], BaseAt(es, base, k), below + Live(es, bs)[..k + 1], bs[d..], start', end)
  {
    TrimIsShort(es, bs, start, end, k, d);
    LiveTrim(es, bs, k + 1, d);
    EndsAtNext(es, bs, start, end, k);
  }

  lemma Rejoin<T>(a: seq<T>, b: seq<T>, k: nat)
    requires k <= |b|
    ensures a + b[..k] + b[k..] == a + b && (a + b)[|a|..|a| + k] == b[..k]
  {
  }

  lemma CompactView(es: seq<EntryMeta>, base: Base, below: Log, bs: seq<Stored>, start: int, end: int,
                    k: nat, d: nat, start': int)
    requires Coherent(es, base, below, bs, start, end) && k < |es| && Trims(es, bs, k, d)
    requires Coherent(es[k + 1..], BaseAt(es, base, k), below + Live(es, bs)[..k + 1], bs[d..], start', end)
    ensures Some(ViewOf(es[k + 1..], BaseAt(es, base, k), below + Live(es, bs)[..k + 1], bs[d..], start', end)) ==
            LogView.CompactTo(ViewOf(es, base, below, bs, start, end), base.index + k + 1)
  {
    var live := Live(es, bs);
    TrimIsShort(es, bs, start, end, k, d);
    LiveTrim(es, bs, k + 1, d);
    OffsetAfter(es, bs, start, end, es[0].base, k + 1);
    Rejoin(below, live, k + 1);
  }

  /** Both, for a partition log that kept everything from some batch `d` on. */
  lemma CompactKeeps(es: seq<EntryMeta>, base: Base, below: Log, bs: seq<Stored>, start: int, end: int, k: nat,
                     bs': seq<Stored>, start': int)
    requires Coherent(es, base, below, bs, start, end) && k < |es| && Tiles(bs', start', end)
    requires Trimmed(bs, bs', es[k].last + 1)
    ensures es[k].term >= 0
    ensures Coherent(es[k + 1..], BaseAt(es, base, k), below + Live(es, bs)[..k + 1], bs', start', end)
    ensures Some(ViewOf(es[k + 1..], BaseAt(es, base, k), below + Live(es, bs)[..k + 1], bs', start', end)) ==
            LogView.CompactTo(ViewOf(es, base, below, bs, start, end), base.index + k + 1)
  {
    var d: nat :| DropsFirst(bs, bs', es[k].last + 1, d);
    EndsAtNext(es, bs, start, end, k);
    CompactCoherent(es, base, below, bs, start, end, k, d, start');
    CompactView(es, base, below, bs, start, end, k, d, start');
  }

  /** The same with the new state by name. */
  lemma CompactedState(es: seq<EntryMeta>, base: Base, below: Log, bs: seq<Stored>, start: int, end: int, k: nat,
                       bs': seq<Stored>, start': int, es': seq<EntryMeta>, base': Base, below': Log, v: LogView.View)
    requires Coherent(es, base, below, bs, start, end) && k < |es| && Tiles(bs', start', end)
    requires v == ViewOf(es, base, below, bs, start, end)
    requires Trimmed(bs, bs', es[k].last + 1)
    requires es' == es[k + 1..] && base' == BaseAt(es, base, k) && below' == below + Live(es, bs)[..k + 1]
    ensures Coherent(es', base', below', bs', start', end) && base'.index == base.index + k + 1
    ensures Some(ViewOf(es', base', below', bs', start', end)) == LogView.CompactTo(v, base.index + k + 1)
  {
    CompactKeeps(es, base, below, bs, start, end, k, bs', start');
  }

  lemma LiveGrows(es: seq<EntryMeta>, bs: seq<Stored>, m: EntryMeta, s: Stored)
    requires Mirrors(es, bs) && Describes(m, s)
    ensures Mirrors(es + [m], bs + [s]) && Live(es + [m], bs + [s]) == Live(es, bs) + [EntryOf(m, s)]
  {
    var es', bs' := es + [m], bs + [s];
    forall k | 0 <= k < |es'| ensures Describes(es'[k], bs'[|bs'| - |es'| + k]) {
      if k < |es| {
        assert Describes(es[k], bs[|bs| - |es| + k]);
      }
    }
  }

  lemma LiveCut(es: seq<EntryMeta>, bs: seq<Stored>, k: nat)
    requires Mirrors(es, bs) && k <= |es|
    ensures Mirrors(es[..k], bs[..|bs| - |es| + k])
    ensures Live(es[..k], bs[..|bs| - |es| + k]) == Live(es, bs)[..k]
  {
    var es', bs' := es[..k], bs[..|bs| - |es| + k];
    forall j | 0 <= j < k ensures Describes(es'[j], bs'[|bs'| - |es'| + j]) {
      assert Describes(es[j], bs[|bs| - |es| + j]);
    }
  }

  lemma AppendMore(v: LogView.View, es: seq<WireEntry>, i: nat)
    requires i < |es|
    ensures LogView.Append(LogView.Append(v, es[..i]), [es[i]]) == LogView.Append(v, es[..i + 1])
  {
    assert LogView.Unwired(es[..i + 1]) == LogView.Unwired(es[..i]) + LogView.Unwired([es[i]]);
  }

  /** Cutting a tiled log where batch `k` begins leaves exactly the batches before it. */
  lemma CutIs(bs: seq<Stored>, bs': seq<Stored>, start: int, end: int, k: nat)
    requires Tiles(bs, start, end) && k < |bs| && bs' <= bs && Tiles(bs', start, bs[k].base)
    requires forall b | b in bs' :: b.base < bs[k].base
    ensures bs' == bs[..k]
  {
    forall j | 0 <= j < |bs'| ensures bs'[j].base < bs[k].base {
      assert bs'[j] in bs';
    }
    if |bs'| < k {
      TilesAscend(bs, start, end, |bs'|, k);
    }
  }

  // ---------------------------------------------------------------- reads

  function LastTermIn(es: seq<EntryMeta>, base: Base): int {
    if es != [] then es[|es| - 1].term else if base.index > 0 then base.term else 0
  }

  function TermIn(es: seq<EntryMeta>, base: Base, i: nat): Result<int> {
    if i == 0 then Ok(0)
    else if i == base.index then Ok(base.term)
    else if i < base.index then Err(OutOfRange)
    else if i > base.index + |es| then Err(OutOfRange)
    else Ok(es[i - base.index - 1].term)
  }

  function Answer<T>(o: Option<T>): Result<T> {
    match o
    case None => Err(OutOfRange)
    case Some(x) => Ok(x)
  }

  lemma LastTermAgrees(es: seq<EntryMeta>, base: Base, below: Log, bs: seq<Stored>, start: int, end: int)
    requires Coherent(es, base, below, bs, start, end)
    ensures LastTermIn(es, base) == LogView.LastTerm(ViewOf(es, base, below, bs, start, end))
  {
    if es != [] {
      assert (below + Live(es, bs))[base.index + |es| - 1] == Live(es, bs)[|es| - 1];
    }
  }

  lemma TermAgrees(es: seq<EntryMeta>, base: Base, below: Log, bs: seq<Stored>, start: int, end: int, i: nat)
    requires Coherent(es, base, below, bs, start, end)
    ensures TermIn(es, base, i) == Answer(LogView.TermAt(ViewOf(es, base, below, bs, start, end), i))
  {
    if base.index < i <= base.index + |es| {
      assert (below + Live(es, bs))[i - 1] == Live(es, bs)[i - base.index - 1];
    }
  }

  /** Offsets of live entry `k`, from the widths of those before it. */
  lemma OffsetsOfLive(es: seq<EntryMeta>, bs: seq<Stored>, start: int, end: int, below: Log, origin: int, k: nat)
    requires Tiles(bs, start, end) && Mirrors(es, bs) && k < |es| && origin == es[0].base
    ensures var v := LogView.RawView(below + Live(es, bs), |below|, origin);
            LogView.OffsetsAt(v, |below| + k + 1) == Some((es[k].base, es[k].last))
  {
    var v := LogView.RawView(below + Live(es, bs), |below|, origin);
    OffsetAfter(es, bs, start, end, origin, k);
    assert v.hist[|below|..|below| + k] == Live(es, bs)[..k];
    assert Describes(es[k], bs[|bs| - |es| + k]);
  }

  function OffsetsIn(es: seq<EntryMeta>, base: Base, i: nat): Result<(int, int)> {
    if i <= base.index || i > base.index + |es| then Err(OutOfRange)
    else Ok((es[i - base.index - 1].base, es[i - base.index - 1].last))
  }

  lemma OffsetsAgreeIn(es: seq<EntryMeta>, base: Base, below: Log, bs: seq<Stored>, start: int, end: int, i: nat)
    requires Coherent(es, base, below, bs, start, end)
    ensures OffsetsIn(es, base, i) == Answer(LogView.OffsetsAt(ViewOf(es, base, below, bs, start, end), i))
  {
    if base.index < i <= base.index + |es| {
      OffsetsOfLive(es, bs, start, end, below, es[0].base, i - base.index - 1);
    }
  }

  /** The wire form of live index `j`. */
  lemma WireOf(es: seq<EntryMeta>, base: Base, below: Log, bs: seq<Stored>, start: int, end: int, j: nat)
    requires Coherent(es, base, below, bs, start, end) && base.index < j <= base.index + |es|
    ensures var m, at := es[j - base.index - 1], |bs| - |es| + (j - base.index - 1);
            && m.term >= 0 && m.base == bs[at].base
            && LogView.Wire(ViewOf(es, base, below, bs, start, end).hist, j) ==
               WireEntry(j, m.term, m.kind, bs[at].batch)
  {
    var k := j - base.index - 1;
    assert Describes(es[k], bs[|bs| - |es| + k]);
    assert (below + Live(es, bs))[j - 1] == Live(es, bs)[k];
  }

  lemma {:induction false} WidthSplits(a: Log, b: Log)
    ensures LogView.Width(a + b) == LogView.Width(a) + LogView.Width(b)
  {
    if b == [] {
      assert a + b == a;
    } else {
      WidthSplits(a, b[..|b| - 1]);
      assert (a + b)[..|a + b| - 1] == a + b[..|b| - 1];
    }
  }

  /** Nothing a reader can still ask for changes when the log is compacted. */
  lemma CompactionIsInvisible(v: LogView.View, i: nat, j: nat, max: nat)
    requires LogView.CompactTo(v, i).Some?
    ensures var w := LogView.CompactTo(v, i).value;
            && LogView.LastIndex(w) == LogView.LastIndex(v) && LogView.LastTerm(w) == LogView.LastTerm(v)
            && (j >= w.snap ==> LogView.TermAt(w, j) == LogView.TermAt(v, j))
            && (j > w.snap ==> LogView.EntriesFrom(w, j, max) == LogView.EntriesFrom(v, j, max))
            && (j > w.snap ==> LogView.OffsetsAt(w, j) == LogView.OffsetsAt(v, j))
  {
    var w := LogView.CompactTo(v, i).value;
    if w.snap < j <= |v.hist| {
      assert v.hist[v.snap..j - 1] == v.hist[v.snap..w.snap] + v.hist[w.snap..j - 1];
      WidthSplits(v.hist[v.snap..w.snap], v.hist[w.snap..j - 1]);
      assert i <= v.snap ==> v.hist[v.snap..w.snap] == [];
    }
  }

  lemma InstallCases(v: LogView.View, s: Snapshot, holds: bool)
    requires s.index > v.snap
    requires holds <==> s.index <= LogView.LastIndex(v) && LogView.TermAt(v, s.index) == Some(s.term)
    ensures LogView.Install(v, s) ==
            if holds then LogView.CompactTo(v, s.index)
            else if s.offset + 1 < 0 then None
            else Some(LogView.RawView(s.history, s.index, s.offset + 1))
  {
  }

  class RaftLog {
    const part: PartitionLog
    var entries: seq<EntryMeta>
    var base: Base
    var metaFile: seq<Byte>
    var snapFile: seq<Byte>
    /** What the snapshot replaced; no operation looks at it. */
    ghost var below: Log

    /** Memory: the metadata, the base and the partition log go together. */
    ghost predicate Agrees()
      reads this, part
    {
      Coherent(entries, base, below, part.batches, part.start, part.end)
    }

    ghost function Shown(): LogView.View
      reads this, part
      requires Agrees()
    {
      ViewOf(entries, base, below, part.batches, part.start, part.end)
    }

    /** Disk: the sidecars hold the metadata and the base. */
    ghost predicate Valid()
      reads this, part
    {
      && Agrees()
      && metaFile == MetaFile(entries)
      && snapFile == SnapFile(base)
    }

    ghost function View(): LogView.View
      reads this, part
      requires Valid()
    {
      Shown()
    }

    constructor (p: PartitionLog)
      requires p.Valid() && p.batches == []
      ensures Valid() && part == p && View() == LogView.RawView([], 0, p.end)
    {
      part := p;
      entries, base, metaFile, snapFile, below := [], NO_BASE, [], [], [];
    }

    // -------------------------------------------------------------- reads

    function LastIndex(): int
      reads this
    {
      base.index + |entries|
    }

    function LastTerm(): int
      reads this
    {
      LastTermIn(entries, base)
    }

    function TermAt(i: nat): Result<int>
      reads this
    {
      TermIn(entries, base, i)
    }

    function OffsetsAt(i: nat): Result<(int, int)>
      reads this
    {
      OffsetsIn(entries, base, i)
    }

    /** Every read answers what the view says. */
    lemma ReadsAgree(i: nat)
      requires Valid()
      ensures LastIndex() == LogView.LastIndex(View()) && LastTerm() == LogView.LastTerm(View())
      ensures TermAt(i) == Answer(LogView.TermAt(View(), i)) && base.index == View().snap
    {
      LastTermAgrees(entries, base, below, part.batches, part.start, part.end);
      TermAgrees(entries, base, below, part.batches, part.start, part.end, i);
    }

    lemma OffsetsAgree(i: nat)
      requires Valid()
      ensures OffsetsAt(i) == Answer(LogView.OffsetsAt(View(), i))
    {
      OffsetsAgreeIn(entries, base, below, part.batches, part.start, part.end, i);
    }

    /** At most `max` entries from index `i` on, their batches read back from the partition log. */
    method EntriesFrom(i: nat, max: nat) returns (r: Result<seq<WireEntry>>)
      requires Valid()
      ensures r.Ok? <==> LogView.EntriesFrom(View(), i, max).Some?
      ensures r.Ok? ==> r.value == LogView.EntriesFrom(View(), i, max).value
    {
      if i < 1 {
        return Err(InvalidArgument);
      }
      if i <= base.index {
        return Err(OutOfRange);
      }
      var result: seq<WireEntry>, j := [], i;
      ghost var v := View();
      assert |v.hist| == LastIndex();
      while j <= LastIndex() && |result| < max
        invariant j == i + |result| && |result| <= max
        invariant Collects(v, i, result)
        decreases LastIndex() + 1 - j
      {
        var meta := entries[j - base.index - 1];
        WireOf(entries, base, below, part.batches, part.start, part.end, j);
        var payload := part.Read(meta.base);
        var entry := WireEntry(j, meta.term, meta.kind, payload.value);
        CollectsOne(v, i, result, entry);
        result := result + [entry];
        j := j + 1;
      }
      Collected(v, i, max, result);
      r := Ok(result);
    }

    // -------------------------------------------------------------- append

    method AppendOne(e: WireEntry)
      requires Valid()
      modifies this, part
      ensures Valid() && View() == LogView.Append(old(View()), [e])
    {
      AppendKeeps(entries, base, below, part.batches, part.start, part.end, e);
      var first := part.end;
      var last := part.Append(e.batch);
      var meta := EntryMeta(e.term, first, last, e.kind);
      MetaFileSize(entries);
      metaFile := WriteAt(metaFile, |entries| * 25, MetaRecord(meta));
      MetaFileGrows(entries, meta);
      entries := entries + [meta];
    }

    /** Appends the entries in order; answers the new last index. */
    method Append(es: seq<WireEntry>) returns (last: nat)
      requires Valid()
      modifies this, part
      ensures Valid() && View() == LogView.Append(old(View()), es) && last == LogView.LastIndex(View())
    {
      ghost var v := View();
      for i := 0 to |es|
        invariant Valid() && View() == LogView.Append(v, es[..i])
      {
        AppendOne(es[i]);
        AppendMore(v, es, i);
      }
      assert es[..|es|] == es;
      last := LastIndex();
      ReadsAgree(0);
    }

    // -------------------------------------------------------------- truncation

    method CutEntries(slot: nat)
      requires Agrees() && slot < |entries|
      modifies this`entries, part
      ensures Agrees() && entries == old(entries)[..slot]
      ensures Some(Shown()) == LogView.TruncateFrom(old(Shown()), base.index + slot + 1)
    {
      ghost var bs, es := part.batches, entries;
      var cut := entries[slot].base;
      assert Describes(es[slot], bs[|bs| - |es| + slot]);
      var r := part.TruncateTo(cut);
      TruncateKeeps(es, base, below, bs, part.start, old(part.end), slot, part.batches);
      entries := entries[..slot];
    }

    method CutSlot(slot: nat)
      requires Valid() && slot < |entries|
      modifies this, part
      ensures Valid() && Some(View()) == LogView.TruncateFrom(old(View()), old(base.index) + slot + 1)
    {
      MetaFilePrefix(entries, slot);
      CutEntries(slot);
      metaFile := CutTo(metaFile, slot * 25);
    }

    method TruncateFrom(i: nat) returns (r: Result<()>)
      requires Valid()
      modifies this, part
      ensures Valid() && (r.Ok? <==> LogView.TruncateFrom(old(View()), i).Some?)
      ensures View() == if r.Ok? then LogView.TruncateFrom(old(View()), i).value else old(View())
    {
      ReadsAgree(0);
      if i < 1 || i <= base.index {
        return Err(InvalidArgument);
      }
      if i > LastIndex() {
        return Ok(());
      }
      CutSlot(i - base.index - 1);
      r := Ok(());
    }

    // -------------------------------------------------------------- compaction

    method PersistSnapshot()
      requires base.index > 0 && |snapFile| <= 28
      modifies this`snapFile
      ensures snapFile == SnapFile(base)
    {
      snapFile := WriteAt(snapFile, 0, BaseRecord(base));
    }

    /** Rewrites the sidecar with exactly the live entries. */
    method RewriteMeta()
      modifies this`metaFile
      ensures metaFile == MetaFile(entries)
    {
      for k := 0 to |entries|
        invariant 25 * k <= |metaFile| && metaFile[..25 * k] == MetaFile(entries[..k])
      {
        assert entries[..k + 1] == entries[..k] + [entries[k]];
        MetaFileGrows(entries[..k], entries[k]);
        metaFile := WriteAt(metaFile, k * 25, MetaRecord(entries[k]));
      }
      assert entries[..|entries|] == entries;
      metaFile := CutTo(metaFile, |entries| * 25);
    }

    method DropThrough(k: nat)
      requires Agrees() && k < |entries|
      modifies this`entries, this`below, this`base, part
      ensures Agrees() && base.index > 0 && Some(Shown()) == LogView.CompactTo(old(Shown()), old(base.index) + k + 1)
    {
      ghost var v, bs, start, low := Shown(), part.batches, part.start, below + Live(entries, part.batches)[..k + 1];
      var trimmed := part.TruncatePrefixTo(entries[k].last + 1);
      var live, at := entries[k + 1..], BaseAt(entries, base, k);
      CompactedState(entries, base, below, bs, start, part.end, k, part.batches, part.start, live, at, low, v);
      below, base, entries := low, at, live;
    }

    method CompactSlot(k: nat)
      requires Valid() && k < |entries|
      modifies this, part
      ensures Valid() && Some(View()) == LogView.CompactTo(old(View()), old(base.index) + k + 1)
    {
      ghost var was := View();
      DropThrough(k);
      ghost var now := Shown();
      assert Some(now) == LogView.CompactTo(was, old(base.index) + k + 1);
      PersistSnapshot();
      RewriteMeta();
      assert Agrees() && Shown() == now;
    }

    method CompactTo(i: nat) returns (r: Result<()>)
      requires Valid()
      modifies this, part
      ensures Valid() && (r.Ok? <==> LogView.CompactTo(old(View()), i).Some?)
      ensures View() == if r.Ok? then LogView.CompactTo(old(View()), i).value else old(View())
    {
      ReadsAgree(0);
      if i <= base.index {
        return Ok(());
      }
      if i > LastIndex() {
        return Err(InvalidArgument);
      }
      CompactSlot(i - base.index - 1);
      r := Ok(());
    }

    method StartAfresh(s: Snapshot) returns (r: Result<()>)
      requires Valid() && s.index > 0
      modifies this, part
      ensures Valid() && (r.Ok? <==> s.offset + 1 >= 0)
      ensures View() == if r.Ok? then LogView.RawView(s.history, s.index, s.offset + 1) else old(View())
    {
      r := part.ResetTo(s.offset + 1);
      if r.Ok? {
        below := s.history;
        entries, base := [], Base(s.index, s.term, s.offset);
        PersistSnapshot();
        RewriteMeta();
      }
    }

    /** The test an install makes is the one the view makes. */
    lemma HoldsAgree(s: Snapshot)
      requires Valid()
      ensures base.index == View().snap
      ensures s.index <= LastIndex() && TermAt(s.index) == Ok(s.term) <==>
              s.index <= LogView.LastIndex(View()) && LogView.TermAt(View(), s.index) == Some(s.term)
    {
      ReadsAgree(s.index);
    }

    /** Keeps the tail if the log already holds the entry the snapshot ends with; else starts afresh. */
    method InstallSnapshot(s: Snapshot) returns (r: Result<()>)
      requires Valid()
      modifies this, part
      ensures Valid() && (r.Ok? <==> LogView.Install(old(View()), s).Some?)
      ensures View() == if r.Ok? then LogView.Install(old(View()), s).value else old(View())
    {
      ghost var v := View();
      HoldsAgree(s);
      if s.index <= base.index {
        return Ok(());
      }
      var holds := s.index <= LastIndex() && TermAt(s.index) == Ok(s.term);
      InstallCases(v, s, holds);
      if holds {
        r := CompactTo(s.index);
      } else {
        r := StartAfresh(s);
      }
    }

    // -------------------------------------------------------------- restart

    predicate Storable()
      reads this
    {
      (forall m | m in entries :: MetaFits(m)) && BaseFits(base)
    }

    /** Whatever completed operations came before, opening the files again rebuilds this very state. */
    lemma ReopensAsIs()
      requires Valid() && Storable()
      ensures Reopened(metaFile, snapFile, part.start, part.end) ==
              Ok(Opened(entries, base))
    {
      if entries != [] {
        var k := |entries| - 1;
        assert Describes(entries[k], part.batches[|part.batches| - |entries| + k]);
      }
      ReopenRoundTrip(entries, base, part.start, part.end);
    }
  }
}
