/** Values shared by every part of the replication model: identities, log entries, RPCs. */
module RaftTypes {

  datatype Option<+T> = None | Some(value: T)

  type NodeId = int

  datatype EntryKind = Data | Config

  type Count = n: int | n >= 1 witness 1

  /** The record batch an entry carries, already decoded: how many offsets it takes and its bytes. */
  datatype Batch = Batch(count: Count, bytes: seq<int>)

  /** One slot of the replicated log. Its index is its position (1-based). */
  datatype LogEntry = LogEntry(term: nat, kind: EntryKind, batch: Batch)

  type Log = seq<LogEntry>

  /** An entry as `AppendEntries` carries it. */
  datatype WireEntry = WireEntry(index: nat, term: nat, kind: EntryKind, batch: Batch)

  function Unwire(e: WireEntry): LogEntry {
    LogEntry(e.term, e.kind, e.batch)
  }

  /**
    The snapshot base a leader sends. On the wire it is `(index, term, offset)`; `history` is the
    log prefix it stands for, which no handler inspects.
   */
  datatype RawSnapshot = RawSnapshot(index: nat, term: nat, offset: int, history: Log)

  type Snapshot = s: RawSnapshot |
      |s.history| == s.index && (s.index > 0 ==> s.history[s.index - 1].term == s.term)
    witness RawSnapshot(0, 0, 0, [])

  datatype Payload =
    | RequestVote(term: nat, candidate: NodeId, lastIndex: nat, lastTerm: nat, preVote: bool)
    | RequestVoteReply(term: nat, granted: bool)
    | AppendEntries(term: nat, leader: NodeId, prevIndex: nat, prevTerm: nat,
                    entries: seq<WireEntry>, leaderCommit: nat, leaderEpoch: int)
    | AppendEntriesReply(term: nat, success: bool, conflictIndex: nat)
    | TimeoutNow(term: nat, leader: NodeId)
    | InstallSnapshot(term: nat, leader: NodeId, snapshot: Snapshot)
    | InstallSnapshotReply(term: nat)

  datatype Message = Message(from: NodeId, to: NodeId, payload: Payload)

  datatype Role = Follower | PreCandidate | Candidate | Leader
}
