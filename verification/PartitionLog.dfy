/** The append-only log of a partition, as far as the replicated log above it can tell. */
module PartitionLogs {
  import opened RaftTypes
  import opened Results

  datatype Stored = Stored(base: int, batch: Batch)

  function EndOf(s: Stored): int {
    s.base + s.batch.count
  }

  /** The batches follow each other without a gap from `start` to `end`. */
  ghost predicate Tiles(bs: seq<Stored>, start: int, end: int) {
    && (bs == [] ==> start == end)
    && (bs != [] ==> bs[0].base == start && EndOf(bs[|bs| - 1]) == end)
    && forall i, j | 0 <= i < j < |bs| && j == i + 1 :: bs[j].base == EndOf(bs[i])
  }

  /** Later batches lie at higher offsets. */
  lemma {:induction false} TilesAscend(bs: seq<Stored>, start: int, end: int, i: nat, j: nat)
    requires Tiles(bs, start, end) && i < j < |bs|
    ensures EndOf(bs[i]) <= bs[j].base
    decreases j
  {
    if i < j - 1 {
      TilesAscend(bs, start, end, i, j - 1);
    }
  }

  /** `bs'` is `bs` without its first `d` batches, all of them below `offset`. */
  ghost predicate DropsFirst(bs: seq<Stored>, bs': seq<Stored>, offset: int, d: nat) {
    d <= |bs| && bs' == bs[d..] && (d == 0 || (d < |bs| && bs[d].base <= offset))
  }

  ghost predicate Trimmed(bs: seq<Stored>, bs': seq<Stored>, offset: int) {
    exists d: nat :: DropsFirst(bs, bs', offset, d)
  }

  class PartitionLog {
    var start: int
    var end: int
    var batches: seq<Stored>

    ghost predicate Valid()
      reads this
    {
      Tiles(batches, start, end)
    }

    constructor (offset: int)
      ensures Valid() && start == end == offset && batches == []
    {
      start, end, batches := offset, offset, [];
    }

    /** Gives the batch the next offsets; answers the last of them. */
    method Append(b: Batch) returns (last: int)
      requires Valid()
      modifies this
      ensures Valid() && start == old(start) && end == last + 1 == old(end) + b.count
      ensures batches == old(batches) + [Stored(old(end), b)]
    {
      batches := batches + [Stored(end, b)];
      end := end + b.count;
      last := end - 1;
    }

    /** Drops everything from `offset` on, which must be where a batch begins or the end. */
    method TruncateTo(offset: int) returns (r: Result<()>)
      requires Valid()
      modifies this
      ensures Valid() && start == old(start)
      ensures r.Err? ==> batches == old(batches) && end == old(end)
      ensures r.Ok? ==> end == offset && batches <= old(batches) && forall b | b in batches :: b.base < offset
      ensures r.Ok? <==> offset == old(end) || exists b :: b in old(batches) && b.base == offset
    {
      if offset == end {
        forall b | b in batches ensures b.base < offset {
          BelowEnd(b);
        }
        return Ok(());
      }
      var k := 0;
      while k < |batches| && batches[k].base != offset
        invariant k <= |batches|
        invariant forall i | 0 <= i < k :: batches[i].base != offset
      {
        k := k + 1;
      }
      if k == |batches| {
        return Err(if offset > end || offset < start then OutOfRange else InvalidArgument);
      }
      forall b | b in batches[..k] ensures b.base < offset {
        var i :| 0 <= i < k && batches[i] == b;
        TilesAscend(batches, start, end, i, k);
      }
      batches := batches[..k];
      end := offset;
      r := Ok(());
    }

    lemma BelowEnd(b: Stored)
      requires Valid() && b in batches
      ensures b.base < end
    {
      var i :| 0 <= i < |batches| && batches[i] == b;
      if i < |batches| - 1 {
        TilesAscend(batches, start, end, i, |batches| - 1);
      }
    }

    lemma StartBelowEnd()
      requires Valid()
      ensures start <= end
    {
      if batches != [] {
        BelowEnd(batches[0]);
      }
    }

    /** Reclaims whole segments below `offset`: never the one holding it, never the last one. */
    method TruncatePrefixTo(offset: int) returns (r: Result<()>)
      requires Valid()
      modifies this
      ensures Valid() && end == old(end)
      ensures r.Ok? <==> offset <= old(end)
      ensures Trimmed(old(batches), batches, offset)
    {
      StartBelowEnd();
      assert DropsFirst(batches, batches, offset, 0);
      if offset <= start {
        return Ok(());
      }
      if offset > end {
        return Err(OutOfRange);
      }
      var d: nat :| d <= |batches| && (d == 0 || (d < |batches| && batches[d].base <= offset));
      if d > 0 {
        start := batches[d].base;
      }
      ghost var was := batches;
      batches := batches[d..];
      assert DropsFirst(was, batches, offset, d);
      r := Ok(());
    }

    /** Empty again, at `offset`. */
    method ResetTo(offset: int) returns (r: Result<()>)
      modifies this
      ensures r.Ok? <==> offset >= 0
      ensures r.Ok? ==> Valid() && start == end == offset && batches == []
      ensures r.Err? ==> start == old(start) && end == old(end) && batches == old(batches)
    {
      if offset < 0 {
        return Err(InvalidArgument);
      }
      start, end, batches := offset, offset, [];
      r := Ok(());
    }

    /** The one batch that begins at `offset`. */
    method Read(offset: int) returns (r: Option<Batch>)
      requires Valid()
      ensures forall i | 0 <= i < |batches| && batches[i].base == offset :: r == Some(batches[i].batch)
      ensures r.None? <==> forall i | 0 <= i < |batches| :: batches[i].base != offset
    {
      for k := 0 to |batches|
        invariant forall i | 0 <= i < k :: batches[i].base != offset
      {
        if batches[k].base == offset {
          forall i | k < i < |batches| ensures batches[i].base != offset {
            TilesAscend(batches, start, end, k, i);
          }
          return Some(batches[k].batch);
        }
      }
      r := None;
    }
  }
}
