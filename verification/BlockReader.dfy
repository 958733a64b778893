/** Reads of any range of a file through aligned blocks, an LRU cache and readahead. */
module BlockReaders {
  import opened Common
  import opened RaftTypes
  import opened Bytes

  datatype Cached = Cached(key: nat, data: seq<Byte>)

  /** What reading `size` bytes at `start` gives: less at the end of the file. */
  function Chunk(file: seq<Byte>, start: nat, size: nat): seq<Byte> {
    file[Min(start, |file|)..Min(start + size, |file|)]
  }

  function DiskBlock(file: seq<Byte>, size: nat, k: nat): seq<Byte> {
    Chunk(file, k * size, size)
  }

  predicate HasKey(lru: seq<Cached>, k: nat) {
    exists i :: 0 <= i < |lru| && lru[i].key == k
  }

  function Find(lru: seq<Cached>, k: nat): (i: nat)
    requires HasKey(lru, k)
    ensures i < |lru| && lru[i].key == k
  {
    if lru[0].key == k then 0
    else
      assert HasKey(lru[1..], k) by {
        var i :| 0 <= i < |lru| && lru[i].key == k;
        assert lru[1..][i - 1].key == k;
      }
      1 + Find(lru[1..], k)
  }

  /** The entry for `k` moves to the front; the others keep their order. */
  function Promoted(lru: seq<Cached>, k: nat): seq<Cached>
    requires HasKey(lru, k)
  {
    var i := Find(lru, k);
    [lru[i]] + lru[..i] + lru[i + 1..]
  }

  /** A new entry at the front; a full cache gives up the one used longest ago. */
  function Inserted(lru: seq<Cached>, capacity: nat, c: Cached): seq<Cached> {
    if capacity == 0 then lru
    else [c] + (if |lru| >= capacity && lru != [] then lru[..|lru| - 1] else lru)
  }

  /** Distinct keys, no more than fit, and every block as it is on disk. */
  ghost predicate CacheOk(file: seq<Byte>, size: nat, capacity: nat, lru: seq<Cached>) {
    && |lru| <= capacity
    && (forall i, j | 0 <= i < j < |lru| :: lru[i].key != lru[j].key)
    && (forall i | 0 <= i < |lru| :: lru[i].data == DiskBlock(file, size, lru[i].key))
  }

  function Keys(lru: seq<Cached>): set<nat> {
    set i | 0 <= i < |lru| :: lru[i].key
  }

  /** Where an entry of the promoted list was before. */
  function Before(i: nat, j: nat): nat {
    if j == 0 then i else if j <= i then j - 1 else j
  }

  lemma PromotedAt(lru: seq<Cached>, k: nat, j: nat)
    requires HasKey(lru, k) && j < |lru|
    ensures |Promoted(lru, k)| == |lru| && Before(Find(lru, k), j) < |lru|
    ensures Promoted(lru, k)[j] == lru[Before(Find(lru, k), j)]
  {
  }

  lemma PromotedKeys(lru: seq<Cached>, k: nat)
    requires HasKey(lru, k)
    ensures Keys(Promoted(lru, k)) == Keys(lru)
  {
    var i, p := Find(lru, k), Promoted(lru, k);
    forall j | 0 <= j < |p| ensures p[j].key in Keys(lru) {
      PromotedAt(lru, k, j);
    }
    forall j | 0 <= j < |lru| ensures lru[j].key in Keys(p) {
      PromotedAt(lru, k, if j == i then 0 else if j < i then j + 1 else j);
    }
  }

  lemma PromotedIsOk(file: seq<Byte>, size: nat, capacity: nat, lru: seq<Cached>, k: nat)
    requires CacheOk(file, size, capacity, lru) && HasKey(lru, k)
    ensures CacheOk(file, size, capacity, Promoted(lru, k)) && Keys(Promoted(lru, k)) == Keys(lru)
  {
    var p := Promoted(lru, k);
    PromotedKeys(lru, k);
    forall j | 0 <= j < |p| ensures p[j].data == DiskBlock(file, size, p[j].key) {
      PromotedAt(lru, k, j);
    }
    forall i, j | 0 <= i < j < |p| ensures p[i].key != p[j].key {
      PromotedAt(lru, k, i);
      PromotedAt(lru, k, j);
    }
  }

  lemma InsertedIsOk(file: seq<Byte>, size: nat, capacity: nat, lru: seq<Cached>, k: nat)
    requires CacheOk(file, size, capacity, lru) && !HasKey(lru, k)
    ensures CacheOk(file, size, capacity, Inserted(lru, capacity, Cached(k, DiskBlock(file, size, k))))
  {
  }

  /** How many of the `count` blocks from `first` on the file has; an empty file counts as one block. */
  function InFile(file: seq<Byte>, size: nat, first: nat, count: nat): nat
    requires size > 0
  {
    var last := if file == [] then 0 else (|file| - 1) / size;
    if first > last then 0 else Min(count, last - first + 1)
  }

  /** The cache after loading, in order, those of `n` blocks from `first` on that it does not have. */
  function LoadedAhead(file: seq<Byte>, size: nat, capacity: nat, lru: seq<Cached>, first: nat, n: nat): seq<Cached> {
    if n == 0 then lru
    else
      var l, k := LoadedAhead(file, size, capacity, lru, first, n - 1), first + n - 1;
      if HasKey(l, k) then l else Inserted(l, capacity, Cached(k, DiskBlock(file, size, k)))
  }

  lemma {:induction false} NothingAhead(file: seq<Byte>, size: nat, lru: seq<Cached>, first: nat, n: nat)
    ensures LoadedAhead(file, size, 0, lru, first, n) == lru
  {
    if n > 0 {
      NothingAhead(file, size, lru, first, n - 1);
    }
  }

  /** Reading ahead caches nothing but what was cached and the blocks asked for. */
  lemma {:induction false} AheadIsAsked(file: seq<Byte>, size: nat, capacity: nat, lru: seq<Cached>, first: nat, n: nat, k: nat)
    requires HasKey(LoadedAhead(file, size, capacity, lru, first, n), k)
    ensures HasKey(lru, k) || first <= k < first + n
  {
    if n > 0 {
      var l := LoadedAhead(file, size, capacity, lru, first, n - 1);
      if HasKey(l, k) {
        AheadIsAsked(file, size, capacity, lru, first, n - 1, k);
      }
    }
  }

  lemma KeysAre(lru: seq<Cached>, k: nat)
    ensures k in Keys(lru) <==> HasKey(lru, k)
  {
  }

  lemma KeysWithoutLast(lru: seq<Cached>)
    requires lru != [] && forall i, j | 0 <= i < j < |lru| :: lru[i].key != lru[j].key
    ensures Keys(lru[..|lru| - 1]) == Keys(lru) - {lru[|lru| - 1].key}
  {
    var n := |lru| - 1;
    forall k | k in Keys(lru) && k != lru[n].key ensures k in Keys(lru[..n]) {
      var i :| 0 <= i < |lru| && lru[i].key == k;
      assert lru[..n][i].key == k;
    }
  }

  lemma KeysWithFront(lru: seq<Cached>, c: Cached)
    ensures Keys([c] + lru) == Keys(lru) + {c.key}
  {
    var l := [c] + lru;
    assert l[0] == c;
    forall i | 0 <= i < |lru| ensures lru[i].key in Keys(l) {
      assert l[i + 1] == lru[i];
    }
  }

  class BlockReader {
    const file: seq<Byte>
    const blockSize: nat
    const capacity: nat
    const readahead: nat
    var fileSize: nat
    var lru: seq<Cached>
    /** The keys in `lru`: a hash index from block number to its place in the list. */
    var index: set<nat>
    var nextSequential: nat
    var haveSeq: bool
    var hits: nat
    var misses: nat
    var diskReads: nat

    ghost predicate Valid()
      reads this
    {
      && blockSize > 0 && fileSize == |file|
      && CacheOk(file, blockSize, capacity, lru)
      && index == Keys(lru)
    }

    constructor (f: seq<Byte>, size: nat, cache: nat, ahead: nat)
      requires size > 0
      ensures Valid() && file == f && blockSize == size && capacity == cache && readahead == ahead
    {
      file, blockSize, capacity, readahead, fileSize := f, size, cache, ahead, |f|;
      lru, index, nextSequential, haveSeq, hits, misses, diskReads := [], {}, 0, false, 0, 0, 0;
    }

    method LoadBlock(k: nat) returns (data: seq<Byte>)
      requires Valid()
      modifies this`diskReads
      ensures Valid() && data == DiskBlock(file, blockSize, k) && diskReads == old(diskReads) + 1
    {
      data := DiskBlock(file, blockSize, k);
      diskReads := diskReads + 1;
    }

    method Insert(k: nat, data: seq<Byte>)
      requires Valid() && k !in index && data == DiskBlock(file, blockSize, k)
      modifies this`lru, this`index
      ensures Valid() && lru == Inserted(old(lru), capacity, Cached(k, data))
    {
      KeysAre(lru, k);
      InsertedIsOk(file, blockSize, capacity, lru, k);
      if capacity == 0 {
        return;
      }
      if |lru| >= capacity {
        var victim := lru[|lru| - 1].key;
        KeysWithoutLast(lru);
        index := index - {victim};
        lru := lru[..|lru| - 1];
      }
      KeysWithFront(lru, Cached(k, data));
      lru := [Cached(k, data)] + lru;
      index := index + {k};
    }

    /** The block, from the cache if it is there; it is the most recently used from now on. */
    method FetchBlock(k: nat) returns (data: seq<Byte>)
      requires Valid() && capacity > 0
      modifies this`lru, this`index, this`hits, this`misses, this`diskReads
      ensures Valid() && data == DiskBlock(file, blockSize, k) && lru != [] && lru[0] == Cached(k, data)
      ensures old(k in index) ==> diskReads == old(diskReads) && hits == old(hits) + 1
      ensures old(k !in index) ==> diskReads == old(diskReads) + 1 && misses == old(misses) + 1
    {
      KeysAre(lru, k);
      if k in index {
        hits := hits + 1;
        PromotedIsOk(file, blockSize, capacity, lru, k);
        lru := Promoted(lru, k);
        return lru[0].data;
      }
      misses := misses + 1;
      data := LoadBlock(k);
      Insert(k, data);
    }

    /** Loads the blocks that follow, as far as the file goes, unless cached already. */
    method Prefetch(first: nat, count: nat)
      requires Valid()
      modifies this`lru, this`index, this`diskReads
      ensures Valid()
      ensures lru == LoadedAhead(file, blockSize, capacity, old(lru), first, InFile(file, blockSize, first, count))
    {
      if capacity == 0 || count == 0 {
        NothingAhead(file, blockSize, lru, first, InFile(file, blockSize, first, count));
        return;
      }
      var last := if fileSize == 0 then 0 else (fileSize - 1) / blockSize;
      var i := 0;
      while i < count
        invariant Valid() && i <= count && (i == 0 || first + i - 1 <= last)
        invariant lru == LoadedAhead(file, blockSize, capacity, old(lru), first, i)
      {
        var k := first + i;
        KeysAre(lru, k);
        if k > last {
          break;
        }
        if k !in index {
          var data := LoadBlock(k);
          Insert(k, data);
        }
        i := i + 1;
      }
    }

    method BlockAt(k: nat) returns (data: seq<Byte>)
      requires Valid()
      modifies this`lru, this`index, this`hits, this`misses, this`diskReads
      ensures Valid() && data == DiskBlock(file, blockSize, k)
    {
      if capacity == 0 {
        data := LoadBlock(k);
      } else {
        data := FetchBlock(k);
      }
    }

    /**
      Copies the file from `offset` on into `dst`, as much as fits and the file has; answers how much.
      The destination beyond that is left alone.
     */
    method ReadAt(dst: array<Byte>, offset: nat) returns (copied: nat)
      requires Valid()
      modifies this, dst
      ensures Valid()
      ensures copied == Min(offset + dst.Length, |file|) - Min(offset, |file|)
      ensures dst[..copied] == file[Min(offset, |file|)..Min(offset + dst.Length, |file|)]
      ensures forall i | copied <= i < dst.Length :: dst[i] == old(dst[i])
    {
      if dst.Length == 0 {
        return 0;
      }
      if offset + dst.Length > fileSize {
        fileSize := |file|;
      }
      if offset >= fileSize {
        return 0;
      }
      copied := ReadBlocks(dst, offset, Min(offset + dst.Length, fileSize));
    }

    /** The range `[offset, end)` of the file, with readahead when reads follow each other. */
    method ReadBlocks(dst: array<Byte>, offset: nat, end: nat) returns (copied: nat)
      requires Valid() && offset < end <= |file| && end - offset <= dst.Length
      modifies this`lru, this`index, this`hits, this`misses, this`diskReads, this`nextSequential, this`haveSeq, dst
      ensures Valid() && copied == end - offset && dst[..copied] == file[offset..end]
      ensures forall i | copied <= i < dst.Length :: dst[i] == old(dst[i])
    {
      var first, last := offset / blockSize, (end - 1) / blockSize;
      ReadAhead(first, last);
      copied := CopyRange(dst, offset, end, first, last);
      nextSequential := last + 1;
      haveSeq := true;
    }

    method ReadAhead(first: nat, last: nat)
      requires Valid()
      modifies this`lru, this`index, this`diskReads
      ensures Valid()
    {
      if haveSeq && first == nextSequential && readahead > 0 {
        Prefetch(last + 1, readahead);
      }
    }

    /** Block by block, the bytes of `[offset, end)`. */
    method CopyRange(dst: array<Byte>, offset: nat, end: nat, first: nat, last: nat) returns (copied: nat)
      requires Valid() && offset < end <= |file| && end - offset <= dst.Length
      requires first == offset / blockSize && last == (end - 1) / blockSize
      modifies this`lru, this`index, this`hits, this`misses, this`diskReads, dst
      ensures Valid() && copied == end - offset && dst[..copied] == file[offset..end]
      ensures forall i | copied <= i < dst.Length :: dst[i] == old(dst[i])
    {
      copied := 0;
      Enters(offset, end, blockSize);
      var blk, start := first, first * blockSize;
      while blk <= last
        invariant Valid() && first <= blk <= last + 1 && start == blk * blockSize
        invariant offset < start + blockSize && copied == Min(end, Max(offset, start)) - offset
        invariant dst[..copied] == file[offset..offset + copied]
        invariant forall i | copied <= i < dst.Length :: dst[i] == old(dst[i])
        decreases last + 1 - blk
      {
        var data := BlockAt(blk);
        NextStart(blk, blockSize);
        Covers(end, blockSize, blk, last);
        copied := CopyBlock(dst, file, offset, end, data, start, blockSize, copied);
        blk, start := blk + 1, start + blockSize;
      }
      Reaches(end, blockSize);
    }
  }

  /** The part of one block that the range `[offset, end)` asks for, after what is copied already. */
  method CopyBlock(dst: array<Byte>, file: seq<Byte>, offset: nat, end: nat, data: seq<Byte>, start: nat, size: nat,
                   copied: nat)
    returns (now: nat)
    requires offset < end <= |file| && end - offset <= dst.Length && data == Chunk(file, start, size)
    requires size > 0 && start < end && offset < start + size && copied == Max(offset, start) - offset
    requires dst[..copied] == file[offset..offset + copied]
    modifies dst
    ensures now == Min(end, start + size) - offset && dst[..now] == file[offset..offset + now]
    ensures forall i | now <= i < dst.Length :: dst[i] == old(dst[i])
  {
    var from, to := Max(offset, start), Min(end, start + |data|);
    PieceOf(file, offset, end, data, start, size, from, to);
    assert copied == from - offset && offset + copied == from;
    CopyPart(dst, file, offset, from, to, data, start, copied);
    now := to - offset;
    assert offset + now == to;
  }

  lemma PieceOf(file: seq<Byte>, offset: nat, end: nat, data: seq<Byte>, start: nat, size: nat, from: nat, to: nat)
    requires offset < end <= |file| && data == Chunk(file, start, size) && start < end && offset < start + size
    requires from == Max(offset, start) && to == Min(end, start + |data|)
    ensures offset <= from <= to <= |file| && start <= from && to - start <= |data| && to == Min(end, start + size)
    ensures data[from - start..from - start + (to - from)] == file[from..to]
  {
    ChunkLength(file, start, size);
    ChunkPart(file, start, size, from, to);
  }

  method CopyPart(dst: array<Byte>, file: seq<Byte>, offset: nat, from: nat, to: nat, data: seq<Byte>, start: nat,
                  copied: nat)
    requires copied == from - offset && offset <= from <= to <= |file| && to - offset <= dst.Length && start <= from && to - start <= |data|
    requires data[from - start..from - start + (to - from)] == file[from..to] && dst[..copied] == file[offset..from]
    modifies dst
    ensures dst[..to - offset] == file[offset..to]
    ensures forall i | to - offset <= i < dst.Length :: dst[i] == old(dst[i])
  {
    Join(file, offset, from, to, dst[..copied], data[from - start..from - start + (to - from)]);
    CopyInto(dst, copied, data, from - start, to - from);
  }

  lemma ChunkLength(file: seq<Byte>, start: nat, size: nat)
    requires start <= |file|
    ensures |Chunk(file, start, size)| == Min(start + size, |file|) - start
  {
  }

  lemma ChunkPart(file: seq<Byte>, start: nat, size: nat, from: nat, to: nat)
    requires start <= from <= to <= |file| && to <= start + size
    ensures to - start <= |Chunk(file, start, size)|
    ensures Chunk(file, start, size)[from - start..from - start + (to - from)] == file[from..to]
  {
    ChunkLength(file, start, size);
    var c := Chunk(file, start, size);
    assert c == file[start..start + |c|];
    SliceOfSlice(file, start, start + |c|, from - start, to - start);
  }

  lemma SliceOfSlice(s: seq<Byte>, a: nat, b: nat, i: nat, j: nat)
    requires a <= b <= |s| && i <= j <= b - a
    ensures s[a..b][i..j] == s[a + i..a + j]
  {
    var u, v := s[a..b][i..j], s[a + i..a + j];
    forall k | 0 <= k < |u| ensures u[k] == v[k] {
      assert s[a..b][i + k] == s[a + (i + k)];
    }
  }

  lemma Join(file: seq<Byte>, a: nat, b: nat, c: nat, left: seq<Byte>, right: seq<Byte>)
    requires a <= b <= c <= |file| && left == file[a..b] && right == file[b..c]
    ensures left + right == file[a..c]
  {
  }

  function Max(a: nat, b: nat): nat {
    if a >= b then a else b
  }

  /** The bytes `data[at..at + n]` to `dst` from `pos` on. */
  method CopyInto(dst: array<Byte>, pos: nat, data: seq<Byte>, at: nat, n: nat)
    requires pos + n <= dst.Length && at + n <= |data|
    modifies dst
    ensures dst[..pos + n] == old(dst[..pos]) + data[at..at + n]
    ensures forall i | pos + n <= i < dst.Length :: dst[i] == old(dst[i])
  {
    for i := 0 to n
      invariant dst[..pos + i] == old(dst[..pos]) + data[at..at + i]
      invariant forall j | pos + i <= j < dst.Length :: dst[j] == old(dst[j])
    {
      dst[pos + i] := data[at + i];
    }
  }

  // ---------------------------------------------------------------- block arithmetic

  lemma NextStart(k: nat, size: nat)
    ensures (k + 1) * size == k * size + size
  {
  }

  /** A range starts inside its first block. */
  lemma Enters(offset: nat, end: nat, size: nat)
    requires size > 0 && offset < end
    ensures offset / size * size <= offset < offset / size * size + size && offset / size <= (end - 1) / size
  {
    DivOrder(offset, end - 1, size);
  }

  lemma DivOrder(a: nat, b: nat, size: nat)
    requires size > 0 && a <= b
    ensures a / size * size <= a < a / size * size + size && a / size <= b / size
  {
    var qa, qb := a / size, b / size;
    assert a == qa * size + a % size && b == qb * size + b % size;
    assert qb < qa ==> (qb + 1) * size <= qa * size;
  }

  /** ... and ends before the block after its last. */
  lemma Reaches(end: nat, size: nat)
    requires size > 0 && end > 0
    ensures end <= ((end - 1) / size + 1) * size
  {
    DivOrder(end - 1, end - 1, size);
    NextStart((end - 1) / size, size);
  }

  /** Every block up to the last one starts before the end. */
  lemma Covers(end: nat, size: nat, k: nat, last: nat)
    requires size > 0 && end > 0 && last == (end - 1) / size && k <= last
    ensures k * size < end
  {
    DivOrder(end - 1, end - 1, size);
    assert k * size <= last * size;
  }
}
