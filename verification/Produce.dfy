/** Idempotent produce on one partition: per-producer sessions over an append-only log. */
module Produce {
  import opened RaftTypes
  import opened Results

  /** A batch as a producer sends it: it carries `count` records numbered from `sequence` on. */
  datatype Incoming = Incoming(pid: int, epoch: int, sequence: int, count: Count)

  /** A batch in the log, at the offset it was given. */
  datatype Stored = Stored(batch: Incoming, base: int)

  datatype Session = Session(epoch: int, last: int, lastBase: int, lastOffset: int)

  datatype Check = Accept | Duplicate | Gap | Expelled

  /** How a batch relates to what the session accepted before. */
  function Classify(s: Session, epoch: int, sequence: int, count: int): Check {
    if epoch < s.epoch then Expelled
    else if epoch > s.epoch then if sequence == 0 then Accept else Gap
    else
      var expected := s.last + 1;
      if sequence == expected then Accept
      else if sequence > expected then Gap
      else if sequence + count <= expected then Duplicate
      else Gap
  }

  function NewSession(epoch: int): Session {
    Session(epoch, -1, -1, -1)
  }

  function Accepted(b: Incoming, base: int): Session {
    Session(b.epoch, b.sequence + b.count - 1, b.sequence, base)
  }

  /** The base offset of the last accepted batch, if that is the one asked about; else -1. */
  function RememberedOffset(s: Session, sequence: int): int {
    if sequence == s.lastBase then s.lastOffset else -1
  }

  datatype PartitionState = PartitionState(sessions: map<int, Session>, log: seq<Stored>, end: int)

  const EMPTY := PartitionState(map[], [], 0)

  function Appended(st: PartitionState, b: Incoming): PartitionState {
    st.(log := st.log + [Stored(b, st.end)], end := st.end + b.count)
  }

  function SessionFor(st: PartitionState, b: Incoming): Session {
    if b.pid in st.sessions then st.sessions[b.pid] else NewSession(b.epoch)
  }

  /** The partition after a produce request, and the last offset acknowledged or why it was refused. */
  function Produced(st: PartitionState, b: Incoming): (PartitionState, Result<int>) {
    if b.pid < 0 then (Appended(st, b), Ok(st.end + b.count - 1))
    else
      var s := SessionFor(st, b);
      var open := st.(sessions := st.sessions[b.pid := s]);
      match Classify(s, b.epoch, b.sequence, b.count)
      case Expelled => (open, Err(Fenced))
      case Gap => (open, Err(OutOfRange))
      case Duplicate =>
        var base := RememberedOffset(s, b.sequence);
        (open, Ok(if base >= 0 then base + b.count - 1 else st.end - 1))
      case Accept =>
        (Appended(st, b).(sessions := st.sessions[b.pid := Accepted(b, st.end)]), Ok(st.end + b.count - 1))
  }

  class Partition {
    var sessions: map<int, Session>
    var log: seq<Stored>
    var end: int

    function State(): PartitionState
      reads this
    {
      PartitionState(sessions, log, end)
    }

    constructor ()
      ensures State() == EMPTY
    {
      sessions, log, end := map[], [], 0;
    }

    method Append(b: Incoming) returns (last: int)
      modifies this`log, this`end
      ensures State() == Appended(old(State()), b) && last == old(end) + b.count - 1
    {
      log := log + [Stored(b, end)];
      end := end + b.count;
      last := end - 1;
    }

    method Produce(b: Incoming) returns (r: Result<int>)
      modifies this
      ensures (State(), r) == Produced(old(State()), b)
    {
      if b.pid < 0 {
        var last := Append(b);
        return Ok(last);
      }
      if b.pid !in sessions {
        sessions := sessions[b.pid := NewSession(b.epoch)];
      }
      var s := sessions[b.pid];
      assert sessions == old(sessions)[b.pid := s];
      match Classify(s, b.epoch, b.sequence, b.count) {
        case Expelled => return Err(Fenced);
        case Gap => return Err(OutOfRange);
        case Duplicate =>
          var base := RememberedOffset(s, b.sequence);
          return Ok(if base >= 0 then base + b.count - 1 else end - 1);
        case Accept =>
      }
      var last := Append(b);
      sessions := sessions[b.pid := Accepted(b, last - b.count + 1)];
      assert sessions == old(sessions)[b.pid := Accepted(b, old(end))];
      r := Ok(last);
    }
  }

  // ---------------------------------------------------------------- what the log holds of a producer

  predicate Is(b: Incoming, pid: int, epoch: int) {
    b.pid == pid && b.epoch == epoch
  }

  function Numbers(from: int, n: nat): seq<int> {
    seq(n, i => from + i)
  }

  /** The sequence numbers logged for a producer's epoch, in log order. */
  function Sequences(log: seq<Stored>, pid: int, epoch: int): seq<int> {
    if log == [] then []
    else
      var b := log[|log| - 1].batch;
      Sequences(log[..|log| - 1], pid, epoch) + (if Is(b, pid, epoch) then Numbers(b.sequence, b.count) else [])
  }

  /** Each number from 0 up exactly once, in order. */
  predicate OnceInOrder(s: seq<int>) {
    forall i | 0 <= i < |s| :: s[i] == i
  }

  /** The log ends, as far as `pid` is concerned, with the batch the session remembers. */
  ghost predicate Remembers(st: PartitionState, pid: int, s: Session) {
    exists i :: 0 <= i < |st.log| && IsLast(st.log, pid, i) && s == Accepted(st.log[i].batch, st.log[i].base)
  }

  predicate IsLast(log: seq<Stored>, pid: int, i: int)
    requires 0 <= i < |log|
  {
    log[i].batch.pid == pid && forall j | i < j < |log| :: log[j].batch.pid != pid
  }

  ghost predicate SessionOk(st: PartitionState, pid: int, s: Session) {
    && |Sequences(st.log, pid, s.epoch)| == s.last + 1
    && (forall i | 0 <= i < |st.log| && st.log[i].batch.pid == pid :: st.log[i].batch.epoch <= s.epoch)
    && (s == NewSession(s.epoch) || Remembers(st, pid, s))
  }

  ghost predicate Consistent(st: PartitionState) {
    && (forall pid, epoch | pid >= 0 :: OnceInOrder(Sequences(st.log, pid, epoch)))
    && (forall pid | pid in st.sessions :: pid >= 0 && SessionOk(st, pid, st.sessions[pid]))
    && (forall i | 0 <= i < |st.log| && st.log[i].batch.pid >= 0 :: st.log[i].batch.pid in st.sessions)
    && (forall i | 0 <= i < |st.log| :: 0 <= st.log[i].base && st.log[i].base + st.log[i].batch.count <= st.end)
    && (forall i, j | 0 <= i < j < |st.log| && st.log[i].batch.pid == st.log[j].batch.pid >= 0 ::
          st.log[i].batch.epoch <= st.log[j].batch.epoch)
    && st.end >= 0
  }

  // ---------------------------------------------------------------- one request

  lemma SequencesGrow(st: PartitionState, b: Incoming, pid: int, epoch: int)
    ensures Sequences(Appended(st, b).log, pid, epoch) ==
            Sequences(st.log, pid, epoch) + (if Is(b, pid, epoch) then Numbers(b.sequence, b.count) else [])
  {
    assert Appended(st, b).log[..|st.log|] == st.log;
  }

  lemma {:induction false} NothingYet(log: seq<Stored>, pid: int, epoch: int)
    requires forall i | 0 <= i < |log| :: !Is(log[i].batch, pid, epoch)
    ensures Sequences(log, pid, epoch) == []
  {
    if log != [] {
      NothingYet(log[..|log| - 1], pid, epoch);
    }
  }

  /** An accepted batch goes on exactly where the log left off. */
  lemma AcceptContinues(st: PartitionState, b: Incoming)
    requires Consistent(st) && b.pid >= 0 && b.sequence >= 0
    requires Classify(SessionFor(st, b), b.epoch, b.sequence, b.count) == Accept
    ensures b.sequence == |Sequences(st.log, b.pid, b.epoch)|
  {
    var s := SessionFor(st, b);
    if b.pid !in st.sessions || b.epoch > s.epoch {
      forall i | 0 <= i < |st.log| ensures !Is(st.log[i].batch, b.pid, b.epoch) {
      }
      NothingYet(st.log, b.pid, b.epoch);
    }
  }

  lemma AppendKeepsOthers(st: PartitionState, st': PartitionState, b: Incoming, pid: int, s: Session)
    requires SessionOk(st, pid, s) && pid != b.pid && st'.log == Appended(st, b).log
    ensures SessionOk(st', pid, s)
  {
    SequencesGrow(st, b, pid, s.epoch);
    if Remembers(st, pid, s) {
      var i :| 0 <= i < |st.log| && IsLast(st.log, pid, i) && s == Accepted(st.log[i].batch, st.log[i].base);
      assert IsLast(st'.log, pid, i);
    }
  }

  /** The session of an accepted batch. */
  lemma AcceptedIsOk(st: PartitionState, b: Incoming)
    requires Consistent(st) && b.pid >= 0 && b.sequence >= 0
    requires Classify(SessionFor(st, b), b.epoch, b.sequence, b.count) == Accept
    ensures SessionOk(Produced(st, b).0, b.pid, Accepted(b, st.end))
  {
    var st' := Produced(st, b).0;
    AcceptContinues(st, b);
    SequencesGrow(st, b, b.pid, b.epoch);
    assert IsLast(st'.log, b.pid, |st.log|) && st'.log[|st.log|] == Stored(b, st.end);
  }

  lemma AcceptKeepsOrder(st: PartitionState, b: Incoming)
    requires Consistent(st) && b.pid >= 0 && b.sequence >= 0
    requires Classify(SessionFor(st, b), b.epoch, b.sequence, b.count) == Accept
    ensures forall pid, epoch | pid >= 0 :: OnceInOrder(Sequences(Appended(st, b).log, pid, epoch))
  {
    AcceptContinues(st, b);
    forall pid, epoch | pid >= 0 ensures OnceInOrder(Sequences(Appended(st, b).log, pid, epoch)) {
      SequencesGrow(st, b, pid, epoch);
      assert OnceInOrder(Sequences(st.log, pid, epoch));
    }
  }

  lemma AcceptKeeps(st: PartitionState, b: Incoming)
    requires Consistent(st) && b.pid >= 0 && b.sequence >= 0
    requires Classify(SessionFor(st, b), b.epoch, b.sequence, b.count) == Accept
    ensures Consistent(Produced(st, b).0)
  {
    var st' := Produced(st, b).0;
    AcceptKeepsOrder(st, b);
    AcceptedIsOk(st, b);
    forall pid | pid in st'.sessions ensures SessionOk(st', pid, st'.sessions[pid]) {
      if pid != b.pid {
        AppendKeepsOthers(st, st', b, pid, st.sessions[pid]);
      }
    }
  }

  /** A producer without identity is appended as is and disturbs no session. */
  lemma PlainKeeps(st: PartitionState, b: Incoming)
    requires Consistent(st) && b.pid < 0
    ensures Consistent(Produced(st, b).0)
  {
    var st' := Produced(st, b).0;
    forall pid, epoch | pid >= 0 ensures OnceInOrder(Sequences(st'.log, pid, epoch)) {
      SequencesGrow(st, b, pid, epoch);
      assert OnceInOrder(Sequences(st.log, pid, epoch));
    }
    forall pid | pid in st'.sessions ensures SessionOk(st', pid, st'.sessions[pid]) {
      AppendKeepsOthers(st, st', b, pid, st.sessions[pid]);
    }
  }

  /** A refused or repeated batch changes nothing but, at most, that its producer is now known. */
  lemma OpenKeeps(st: PartitionState, b: Incoming)
    requires Consistent(st) && b.pid >= 0
    ensures Consistent(st.(sessions := st.sessions[b.pid := SessionFor(st, b)]))
  {
    var st' := st.(sessions := st.sessions[b.pid := SessionFor(st, b)]);
    if b.pid !in st.sessions {
      NothingYet(st.log, b.pid, b.epoch);
    }
    forall pid | pid in st'.sessions ensures SessionOk(st', pid, st'.sessions[pid]) {
      if pid in st.sessions && Remembers(st, pid, st.sessions[pid]) {
        assert Remembers(st', pid, st'.sessions[pid]);
      }
    }
  }

  lemma ProduceKeeps(st: PartitionState, b: Incoming)
    requires Consistent(st) && (b.pid >= 0 ==> b.sequence >= 0)
    ensures Consistent(Produced(st, b).0)
  {
    if b.pid < 0 {
      PlainKeeps(st, b);
    } else if Classify(SessionFor(st, b), b.epoch, b.sequence, b.count) == Accept {
      AcceptKeeps(st, b);
    } else {
      OpenKeeps(st, b);
    }
  }

  // ---------------------------------------------------------------- whole runs

  /** Any requests of any producers, in any order; numbered ones count from 0 up. */
  ghost predicate Run(sts: seq<PartitionState>, bs: seq<Incoming>) {
    && |sts| == |bs| + 1 && sts[0] == EMPTY
    && (forall k | 0 <= k < |bs| :: bs[k].pid >= 0 ==> bs[k].sequence >= 0)
    && forall k | 0 <= k < |bs| :: sts[k + 1] == Produced(sts[k], bs[k]).0
  }

  lemma {:induction false} RunKeeps(sts: seq<PartitionState>, bs: seq<Incoming>, k: nat)
    requires Run(sts, bs) && k < |sts|
    ensures Consistent(sts[k])
  {
    if k > 0 {
      RunKeeps(sts, bs, k - 1);
      ProduceKeeps(sts[k - 1], bs[k - 1]);
      assert sts[(k - 1) + 1] == Produced(sts[k - 1], bs[k - 1]).0;
    }
  }

  /** Whatever was retried, per producer and epoch the log holds 0, 1, 2, ... once each and in order. */
  lemma EffectivelyOnce(sts: seq<PartitionState>, bs: seq<Incoming>, k: nat, pid: int, epoch: int)
    requires Run(sts, bs) && k < |sts| && pid >= 0
    ensures OnceInOrder(Sequences(sts[k].log, pid, epoch))
  {
    RunKeeps(sts, bs, k);
  }

  /** A producer's epochs never go back in the log. */
  lemma EpochsNeverFall(sts: seq<PartitionState>, bs: seq<Incoming>, k: nat, i: nat, j: nat)
    requires Run(sts, bs) && k < |sts| && i < j < |sts[k].log|
    requires sts[k].log[i].batch.pid == sts[k].log[j].batch.pid >= 0
    ensures sts[k].log[i].batch.epoch <= sts[k].log[j].batch.epoch
  {
    RunKeeps(sts, bs, k);
  }

  /** A request acknowledged without an append asked for nothing the log does not hold already. */
  lemma AckedIsLogged(sts: seq<PartitionState>, bs: seq<Incoming>, k: nat, n: int)
    requires Run(sts, bs) && k < |bs| && bs[k].pid >= 0
    requires Produced(sts[k], bs[k]).1.Ok? && sts[k + 1].log == sts[k].log
    requires bs[k].sequence <= n < bs[k].sequence + bs[k].count
    ensures n in Sequences(sts[k].log, bs[k].pid, bs[k].epoch)
  {
    RunKeeps(sts, bs, k);
    var st, b := sts[k], bs[k];
    assert Appended(st, b).log != st.log;
    var s := SessionFor(st, b);
    if b.pid in st.sessions {
      assert SessionOk(st, b.pid, s) && OnceInOrder(Sequences(st.log, b.pid, b.epoch));
      assert Sequences(st.log, b.pid, b.epoch)[n] == n;
    }
  }

  /** Until the producer gets another batch in, its session stays as it is. */
  lemma SessionStays(st: PartitionState, b: Incoming, pid: int)
    requires pid in st.sessions && pid >= 0
    requires b.pid == pid ==> Produced(st, b).0.log == st.log
    ensures pid in Produced(st, b).0.sessions && Produced(st, b).0.sessions[pid] == st.sessions[pid]
  {
    assert Appended(st, b).log != st.log;
  }

  lemma {:induction false} SessionWaits(sts: seq<PartitionState>, bs: seq<Incoming>, j: nat, k: nat, pid: int)
    requires Run(sts, bs) && j <= k < |sts| && pid in sts[j].sessions && pid >= 0
    requires forall m | j <= m < k && bs[m].pid == pid :: sts[m + 1].log == sts[m].log
    ensures pid in sts[k].sessions && sts[k].sessions[pid] == sts[j].sessions[pid]
    decreases k - j
  {
    if j < k {
      assert sts[j + 1] == Produced(sts[j], bs[j]).0;
      assert bs[j].pid == pid ==> sts[j + 1].log == sts[j].log;
      SessionStays(sts[j], bs[j], pid);
      SessionWaits(sts, bs, j + 1, k, pid);
    }
  }

  /** Retrying the last batch, however often and whatever others do meanwhile, answers its first offset. */
  lemma RetryGetsOriginalOffset(sts: seq<PartitionState>, bs: seq<Incoming>, j: nat, k: nat)
    requires Run(sts, bs) && j < k < |bs| && bs[k] == bs[j] && bs[j].pid >= 0
    requires sts[j + 1].log != sts[j].log
    requires forall m | j < m < k && bs[m].pid == bs[j].pid :: sts[m + 1].log == sts[m].log
    ensures Produced(sts[k], bs[k]).1 == Produced(sts[j], bs[j]).1 && sts[k + 1].log == sts[k].log
  {
    RunKeeps(sts, bs, j);
    SessionWaits(sts, bs, j + 1, k, bs[j].pid);
  }

  // ---------------------------------------------------------------- which requests get in

  /** The first request of its producer: the one that opens its session. */
  predicate IsFirst(bs: seq<Incoming>, j: int)
    requires 0 <= j < |bs|
  {
    forall m | 0 <= m < j :: bs[m].pid != bs[j].pid
  }

  /** No higher epoch of the producer was opened or logged before. */
  predicate IsCurrent(log: seq<Stored>, bs: seq<Incoming>, pid: int, epoch: int) {
    && (forall i | 0 <= i < |log| && log[i].batch.pid == pid :: log[i].batch.epoch <= epoch)
    && (forall j | 0 <= j < |bs| && bs[j].pid == pid && IsFirst(bs, j) :: bs[j].epoch <= epoch)
  }

  /** The session of `pid` goes back to the request that opened it. */
  ghost predicate OpenedBy(bs: seq<Incoming>, pid: int, s: Session) {
    exists j :: 0 <= j < |bs| && bs[j].pid == pid && IsFirst(bs, j) && bs[j].epoch <= s.epoch &&
                (s.last < 0 ==> s.epoch == bs[j].epoch)
  }

  lemma OpenedStays(bs: seq<Incoming>, b: Incoming, pid: int, s: Session, s': Session)
    requires OpenedBy(bs, pid, s) && s.epoch <= s'.epoch && (s'.last < 0 ==> s' == s)
    ensures OpenedBy(bs + [b], pid, s')
  {
    var j :| 0 <= j < |bs| && bs[j].pid == pid && IsFirst(bs, j) && bs[j].epoch <= s.epoch &&
             (s.last < 0 ==> s.epoch == bs[j].epoch);
    assert (bs + [b])[j] == bs[j] && IsFirst(bs + [b], j);
  }

  lemma ProduceOpens(st: PartitionState, bs: seq<Incoming>, b: Incoming, pid: int)
    requires pid in Produced(st, b).0.sessions && (b.pid >= 0 ==> b.sequence >= 0)
    requires forall m | 0 <= m < |bs| && bs[m].pid >= 0 :: bs[m].pid in st.sessions
    requires pid in st.sessions ==> OpenedBy(bs, pid, st.sessions[pid])
    ensures OpenedBy(bs + [b], pid, Produced(st, b).0.sessions[pid])
  {
    var s' := Produced(st, b).0.sessions[pid];
    if pid in st.sessions {
      OpenedStays(bs, b, pid, st.sessions[pid], s');
    } else {
      assert (bs + [b])[|bs|] == b && IsFirst(bs + [b], |bs|);
    }
  }

  lemma {:induction false} SessionsAreOpened(sts: seq<PartitionState>, bs: seq<Incoming>, k: nat)
    requires Run(sts, bs) && k < |sts|
    ensures forall m | 0 <= m < k && bs[m].pid >= 0 :: bs[m].pid in sts[k].sessions
    ensures forall pid | pid in sts[k].sessions :: OpenedBy(bs[..k], pid, sts[k].sessions[pid])
  {
    if k > 0 {
      SessionsAreOpened(sts, bs, k - 1);
      assert sts[(k - 1) + 1] == Produced(sts[k - 1], bs[k - 1]).0;
      assert bs[..k] == bs[..k - 1] + [bs[k - 1]];
      forall pid | pid in sts[k].sessions ensures OpenedBy(bs[..k], pid, sts[k].sessions[pid]) {
        ProduceOpens(sts[k - 1], bs[..k - 1], bs[k - 1], pid);
      }
    }
  }

  /** A session keeps exactly the highest epoch its producer opened with or logged. */
  lemma SessionEpochIsCurrent(st: PartitionState, bs: seq<Incoming>, pid: int, epoch: int)
    requires Consistent(st) && pid in st.sessions && OpenedBy(bs, pid, st.sessions[pid])
    ensures IsCurrent(st.log, bs, pid, epoch) <==> epoch >= st.sessions[pid].epoch
  {
    var s := st.sessions[pid];
    assert SessionOk(st, pid, s);
    var j :| 0 <= j < |bs| && bs[j].pid == pid && IsFirst(bs, j) && bs[j].epoch <= s.epoch &&
             (s.last < 0 ==> s.epoch == bs[j].epoch);
    forall m | 0 <= m < |bs| && bs[m].pid == pid && IsFirst(bs, m) ensures m == j {
    }
    if s.last >= 0 {
      var i :| 0 <= i < |st.log| && IsLast(st.log, pid, i) && s == Accepted(st.log[i].batch, st.log[i].base);
      assert st.log[i].batch.epoch == s.epoch;
    }
  }

  /** Before its first request a producer has nothing logged and every epoch is current. */
  lemma UnknownIsCurrent(st: PartitionState, bs: seq<Incoming>, pid: int, epoch: int)
    requires Consistent(st) && pid !in st.sessions && pid >= 0
    requires forall m | 0 <= m < |bs| && bs[m].pid >= 0 :: bs[m].pid in st.sessions
    ensures IsCurrent(st.log, bs, pid, epoch) && Sequences(st.log, pid, epoch) == []
  {
    NothingYet(st.log, pid, epoch);
  }

  /** What a numbered request gets, by the log and by whether its epoch is the producer's highest. */
  ghost predicate AnswersByLog(st: PartitionState, b: Incoming, current: bool) {
    var (st', r) := Produced(st, b);
    var n := |Sequences(st.log, b.pid, b.epoch)|;
    if current && b.sequence == n then st'.log == st.log + [Stored(b, st.end)] && r == Ok(st.end + b.count - 1)
    else && st'.log == st.log && st'.end == st.end
         && (if !current then r == Err(Fenced)
             else if b.sequence + b.count <= n then r.Ok?
             else r == Err(OutOfRange))
  }

  lemma ProducedByLog(st: PartitionState, b: Incoming, current: bool)
    requires Consistent(st) && b.pid >= 0 && b.sequence >= 0
    requires current <==> b.epoch >= SessionFor(st, b).epoch
    ensures AnswersByLog(st, b, current)
  {
    var s := SessionFor(st, b);
    if b.pid !in st.sessions || b.epoch > s.epoch {
      forall i | 0 <= i < |st.log| ensures !Is(st.log[i].batch, b.pid, b.epoch) {
      }
      NothingYet(st.log, b.pid, b.epoch);
    } else {
      assert SessionOk(st, b.pid, s);
    }
  }

  /**
    In every run a numbered request is appended, at the end of the log and answered with its last offset,
    if and only if its epoch is the highest its producer opened or logged and it goes on exactly where that
    epoch's records stop. Otherwise nothing is appended: a lower epoch is fenced, records all logged before
    are acknowledged again, anything else is out of range.
   */
  lemma AppendedIff(sts: seq<PartitionState>, bs: seq<Incoming>, k: nat)
    requires Run(sts, bs) && k < |bs| && bs[k].pid >= 0
    ensures AnswersByLog(sts[k], bs[k], IsCurrent(sts[k].log, bs[..k], bs[k].pid, bs[k].epoch))
  {
    var st, b := sts[k], bs[k];
    RunKeeps(sts, bs, k);
    SessionsAreOpened(sts, bs, k);
    if b.pid in st.sessions {
      SessionEpochIsCurrent(st, bs[..k], b.pid, b.epoch);
    } else {
      UnknownIsCurrent(st, bs[..k], b.pid, b.epoch);
    }
    ProducedByLog(st, b, IsCurrent(st.log, bs[..k], b.pid, b.epoch));
  }

  /** A repeat is answered from the producer's last logged batch, or with the end of the log. */
  lemma RepeatAnswers(sts: seq<PartitionState>, bs: seq<Incoming>, k: nat, i: nat)
    requires Run(sts, bs) && k < |bs| && bs[k].pid >= 0
    requires Produced(sts[k], bs[k]).1.Ok? && sts[k + 1].log == sts[k].log
    requires i < |sts[k].log| && IsLast(sts[k].log, bs[k].pid, i)
    ensures var st, b, x := sts[k], bs[k], sts[k].log[i];
            Produced(st, b).1 == Ok(if x.batch.sequence == b.sequence then x.base + b.count - 1 else st.end - 1)
  {
    var st, b := sts[k], bs[k];
    RunKeeps(sts, bs, k);
    assert Appended(st, b).log != st.log;
    assert SessionOk(st, b.pid, st.sessions[b.pid]);
  }
}
