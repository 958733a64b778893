/**
  The replicated log as a value: the whole history of entries and how much of it is compacted.
  `RaftLog` keeps only what lies above the snapshot base; this view also remembers what lies below.
 */
module LogView {
  import opened RaftTypes

  /** `origin` is the partition offset that follows the compacted prefix. */
  datatype RawView = RawView(hist: Log, snap: nat, origin: int)

  type View = v: RawView | v.snap <= |v.hist| witness RawView([], 0, 0)

  /** Partition offsets taken by a run of entries. */
  function Width(l: Log): nat {
    if l == [] then 0 else Width(l[..|l| - 1]) + l[|l| - 1].batch.count
  }

  function LastIndex(v: View): nat {
    |v.hist|
  }

  function LastTerm(v: View): nat {
    if v.hist == [] then 0 else v.hist[|v.hist| - 1].term
  }

  function SnapTerm(v: View): nat {
    if v.snap == 0 then 0 else v.hist[v.snap - 1].term
  }

  /** Term of index `i`; `None` when it is compacted away or past the end. */
  function TermAt(v: View, i: nat): Option<nat> {
    if i == 0 then Some(0)
    else if i < v.snap || i > |v.hist| then None
    else Some(v.hist[i - 1].term)
  }

  /** Partition offsets `[base, last]` of index `i`. */
  function OffsetsAt(v: View, i: nat): Option<(int, int)> {
    if i <= v.snap || i > |v.hist| then None
    else
      var base := v.origin + Width(v.hist[v.snap..i - 1]);
      Some((base, base + v.hist[i - 1].batch.count - 1))
  }

  function Wire(l: Log, i: nat): WireEntry
    requires 1 <= i <= |l|
  {
    WireEntry(i, l[i - 1].term, l[i - 1].kind, l[i - 1].batch)
  }

  /** At most `max` live entries from index `i` on; `None` when `i` is 0 or compacted. */
  function EntriesFrom(v: View, i: nat, max: nat): Option<seq<WireEntry>> {
    if i < 1 || i <= v.snap then None
    else if i > |v.hist| then Some([])
    else
      var n := if |v.hist| - i + 1 < max then |v.hist| - i + 1 else max;
      Some(seq(n, k requires 0 <= k < n => Wire(v.hist, i + k)))
  }

  function Unwired(es: seq<WireEntry>): Log {
    seq(|es|, k requires 0 <= k < |es| => Unwire(es[k]))
  }

  function Append(v: View, es: seq<WireEntry>): View {
    v.(hist := v.hist + Unwired(es))
  }

  /** Drop index `i` and everything after it; refused for compacted indices. */
  function TruncateFrom(v: View, i: nat): Option<View> {
    if i < 1 || i <= v.snap then None
    else if i > |v.hist| then Some(v)
    else Some(v.(hist := v.hist[..i - 1]))
  }

  function CompactTo(v: View, i: nat): Option<View> {
    if i <= v.snap then Some(v)
    else if i > |v.hist| then None
    else Some(RawView(v.hist, i, v.origin + Width(v.hist[v.snap..i])))
  }

  function Install(v: View, s: Snapshot): Option<View> {
    if s.index <= v.snap then Some(v)
    else if s.index <= |v.hist| && TermAt(v, s.index) == Some(s.term) then CompactTo(v, s.index)
    else if s.offset + 1 < 0 then None
    else Some(RawView(s.history, s.index, s.offset + 1))
  }
}
