/**
  What each input does to a replica, as functions on its state. `RaftNode` computes these step by
  step; `Cluster` runs a group of them. `now` is the injected clock and `timeout` the election
  timeout drawn for this input.
 */
module NodeSpec {
  import opened Common
  import opened RaftTypes
  import LogView

  const MAX_ENTRIES: nat := 64

  datatype Config = Config(
    self: NodeId, peers: seq<NodeId>, learners: seq<NodeId>, electionMin: int, heartbeat: int)

  datatype Node = Node(
    role: Role,
    term: nat,
    votedFor: Option<NodeId>,
    dirty: bool,
    commit: nat,
    next: map<NodeId, nat>,
    matched: map<NodeId, nat>,
    epoch: int,
    leader: Option<NodeId>,
    votes: set<NodeId>,
    lastSent: map<NodeId, nat>,
    transfer: Option<NodeId>,
    electionDeadline: int,
    leaderContact: int,
    heartbeatDeadline: int,
    started: bool,
    outbox: seq<Message>,
    log: LogView.View)

  // ---------------------------------------------------------------- membership

  predicate IsVoter(cfg: Config, n: NodeId) {
    n !in cfg.learners
  }

  function CountVoters(ns: seq<NodeId>, learners: seq<NodeId>): nat {
    if ns == [] then 0
    else CountVoters(ns[..|ns| - 1], learners) + (if ns[|ns| - 1] in learners then 0 else 1)
  }

  function ClusterSize(cfg: Config): nat {
    (if IsVoter(cfg, cfg.self) then 1 else 0) + CountVoters(cfg.peers, cfg.learners)
  }

  predicate HasMajority(cfg: Config, votes: nat) {
    votes * 2 > ClusterSize(cfg)
  }

  // ---------------------------------------------------------------- role changes

  function AdvanceTerm(n: Node, term: nat): Node {
    n.(term := term, votedFor := None, dirty := true)
  }

  function RecordVote(n: Node, c: NodeId): Node {
    n.(votedFor := Some(c), dirty := true)
  }

  function Send(cfg: Config, n: Node, to: NodeId, p: Payload): Node {
    n.(outbox := n.outbox + [Message(cfg.self, to, p)])
  }

  function BecomeFollower(n: Node, now: int, timeout: int, term: nat): Node {
    var n := if term > n.term then AdvanceTerm(n, term) else n;
    n.(role := Follower, next := map[], matched := map[], votes := {}, transfer := None,
       electionDeadline := now + timeout)
  }

  function VoteRequest(cfg: Config, n: Node, pre: bool): Payload {
    RequestVote(if pre then n.term + 1 else n.term, cfg.self,
                LogView.LastIndex(n.log), LogView.LastTerm(n.log), pre)
  }

  /** The first `k` peers have been asked for their vote (learners are skipped). */
  function BroadcastTo(cfg: Config, n: Node, pre: bool, k: nat): Node
    requires k <= |cfg.peers|
  {
    if k == 0 then n
    else
      var m := BroadcastTo(cfg, n, pre, k - 1);
      if IsVoter(cfg, cfg.peers[k - 1]) then Send(cfg, m, cfg.peers[k - 1], VoteRequest(cfg, n, pre))
      else m
  }

  function Crowned(cfg: Config, n: Node, now: int): Node {
    n.(role := Leader, leader := Some(cfg.self), epoch := n.epoch + 1,
       next := map p | p in cfg.peers :: LogView.LastIndex(n.log) + 1,
       matched := map p | p in cfg.peers :: 0,
       lastSent := map[], transfer := None,
       heartbeatDeadline := now + cfg.heartbeat)
  }

  function BecomeLeader(cfg: Config, n: Node, now: int): Node {
    ReplicateAll(cfg, Crowned(cfg, n, now))
  }

  function Standing(cfg: Config, n: Node, now: int, timeout: int): Node {
    RecordVote(AdvanceTerm(n, n.term + 1), cfg.self)
    .(role := Candidate, leader := None, votes := {cfg.self}, electionDeadline := now + timeout)
  }

  function BecomeCandidate(cfg: Config, n: Node, now: int, timeout: int): Node {
    var n := Standing(cfg, n, now, timeout);
    if HasMajority(cfg, 1) then BecomeLeader(cfg, n, now)
    else BroadcastTo(cfg, n, false, |cfg.peers|)
  }

  function Probing(cfg: Config, n: Node, now: int, timeout: int): Node {
    n.(role := PreCandidate, leader := None, votes := {cfg.self}, electionDeadline := now + timeout)
  }

  function StartPreElection(cfg: Config, n: Node, now: int, timeout: int): Node {
    var n := Probing(cfg, n, now, timeout);
    if HasMajority(cfg, 1) then BecomeCandidate(cfg, n, now, timeout)
    else BroadcastTo(cfg, n, true, |cfg.peers|)
  }

  // ---------------------------------------------------------------- replication

  function NextIndex(n: Node, p: NodeId): nat {
    if p in n.next then n.next[p] else 0
  }

  function MatchIndex(n: Node, p: NodeId): nat {
    if p in n.matched then n.matched[p] else 0
  }

  function LastSent(n: Node, p: NodeId): nat {
    if p in n.lastSent then n.lastSent[p] else 0
  }

  function SnapshotOf(v: LogView.View): Snapshot {
    RawSnapshot(v.snap, LogView.SnapTerm(v), if v.snap == 0 then 0 else v.origin - 1, v.hist[..v.snap])
  }

  function SendSnapshotTo(cfg: Config, n: Node, p: NodeId): Node {
    Send(cfg, n.(lastSent := n.lastSent[p := n.log.snap]), p,
         InstallSnapshot(n.term, cfg.self, SnapshotOf(n.log)))
  }

  function AppendRequest(cfg: Config, n: Node, next: nat): Payload
    requires next >= 1
  {
    var prevTerm := LogView.TermAt(n.log, next - 1);
    var es := LogView.EntriesFrom(n.log, next, MAX_ENTRIES);
    AppendEntries(n.term, cfg.self, next - 1, if prevTerm.Some? then prevTerm.value else 0,
                  if es.Some? then es.value else [], n.commit, n.epoch)
  }

  function ReplicateTo(cfg: Config, n: Node, p: NodeId): Node {
    var next := NextIndex(n, p);
    if next <= n.log.snap then SendSnapshotTo(cfg, n, p)
    else
      var req := AppendRequest(cfg, n, next);
      var sent := if req.entries == [] then next - 1 else req.entries[|req.entries| - 1].index;
      Send(cfg, n.(lastSent := n.lastSent[p := sent]), p, req)
  }

  /** The first `k` peers have been sent their next request. */
  function ReplicateFirst(cfg: Config, n: Node, k: nat): Node
    requires k <= |cfg.peers|
  {
    if k == 0 then n else ReplicateTo(cfg, ReplicateFirst(cfg, n, k - 1), cfg.peers[k - 1])
  }

  lemma NextPeer(cfg: Config, n: Node, k: nat, m: Node)
    requires k < |cfg.peers| && m == ReplicateFirst(cfg, n, k)
    ensures ReplicateTo(cfg, m, cfg.peers[k]) == ReplicateFirst(cfg, n, k + 1)
  {
  }

  function ReplicateAll(cfg: Config, n: Node): Node {
    ReplicateFirst(cfg, n, |cfg.peers|)
  }

  function PeerMatches(cfg: Config, n: Node, k: nat): seq<nat>
    requires k <= |cfg.peers|
  {
    if k == 0 then []
    else PeerMatches(cfg, n, k - 1) +
         (if IsVoter(cfg, cfg.peers[k - 1]) then [MatchIndex(n, cfg.peers[k - 1])] else [])
  }

  /** How far each voter is known to have replicated, this node first. */
  function Matches(cfg: Config, n: Node): seq<nat> {
    (if IsVoter(cfg, cfg.self) then [LogView.LastIndex(n.log)] else []) + PeerMatches(cfg, n, |cfg.peers|)
  }

  function InsertDesc(x: nat, s: seq<nat>): seq<nat> {
    if s == [] || s[0] <= x then [x] + s else [s[0]] + InsertDesc(x, s[1..])
  }

  function SortDesc(s: seq<nat>): seq<nat> {
    if s == [] then [] else InsertDesc(s[|s| - 1], SortDesc(s[..|s| - 1]))
  }

  lemma InsertDescLength(x: nat, s: seq<nat>)
    ensures |InsertDesc(x, s)| == |s| + 1
  {
  }

  function MajorityMatch(s: seq<nat>): nat
    requires s != []
  {
    SortDescLength(s);
    SortDesc(s)[|s| / 2]
  }

  lemma SortDescLength(s: seq<nat>)
    ensures |SortDesc(s)| == |s|
  {
    if s != [] {
      InsertDescLength(s[|s| - 1], SortDesc(s[..|s| - 1]));
    }
  }

  /** Commits the index a majority holds, if it is of the current term (section 5.4). */
  function AdvanceCommit(cfg: Config, n: Node): Node {
    var ms := Matches(cfg, n);
    if ms == [] then n
    else
      var c := MajorityMatch(ms);
      if c > n.commit && LogView.TermAt(n.log, c) == Some(n.term) then n.(commit := c) else n
  }

  function MaybeTransferTo(cfg: Config, n: Node, p: NodeId): Node {
    if n.transfer != Some(p) then n
    else if MatchIndex(n, p) >= LogView.LastIndex(n.log) then
      Send(cfg, n, p, TimeoutNow(n.term, cfg.self)).(transfer := None)
    else ReplicateTo(cfg, n, p)
  }

  // ---------------------------------------------------------------- inputs

  function Tick(cfg: Config, n: Node, now: int, timeout: int): Node {
    if !n.started then n.(started := true, electionDeadline := now + timeout)
    else if n.role == Leader then
      if now >= n.heartbeatDeadline then
        ReplicateAll(cfg, n.(heartbeatDeadline := now + cfg.heartbeat))
      else n
    else if now >= n.electionDeadline && IsVoter(cfg, cfg.self) then
      StartPreElection(cfg, n, now, timeout)
    else n
  }

  predicate LogIsUpToDate(n: Node, lastIndex: nat, lastTerm: nat) {
    if lastTerm != LogView.LastTerm(n.log) then lastTerm > LogView.LastTerm(n.log)
    else lastIndex >= LogView.LastIndex(n.log)
  }

  function PreVoteReply(cfg: Config, n: Node, now: int, a: Payload): Payload
    requires a.RequestVote?
  {
    RequestVoteReply(n.term,
      && a.term >= n.term
      && n.role != Leader
      && now - n.leaderContact >= cfg.electionMin
      && LogIsUpToDate(n, a.lastIndex, a.lastTerm))
  }

  function OnRequestVote(cfg: Config, n: Node, now: int, timeout: int, a: Payload): (Node, Payload)
    requires a.RequestVote?
  {
    if a.preVote then (n, PreVoteReply(cfg, n, now, a))
    else
      var n := if a.term > n.term then BecomeFollower(n, now, timeout, a.term) else n;
      if a.term < n.term then (n, RequestVoteReply(n.term, false))
      else if (n.votedFor == None || n.votedFor == Some(a.candidate)) &&
              LogIsUpToDate(n, a.lastIndex, a.lastTerm) then
        (RecordVote(n, a.candidate).(electionDeadline := now + timeout), RequestVoteReply(n.term, true))
      else (n, RequestVoteReply(n.term, false))
  }

  function OnRequestVoteReply(cfg: Config, n: Node, now: int, timeout: int, from: NodeId, r: Payload): Node
    requires r.RequestVoteReply?
  {
    if r.term > n.term then BecomeFollower(n, now, timeout, r.term)
    else if n.role == PreCandidate then
      if r.term == n.term && r.granted && IsVoter(cfg, from) then
        var n := n.(votes := n.votes + {from});
        if HasMajority(cfg, |n.votes|) then BecomeCandidate(cfg, n, now, timeout) else n
      else n
    else if n.role == Candidate && r.term == n.term && r.granted && IsVoter(cfg, from) then
      var n := n.(votes := n.votes + {from});
      if HasMajority(cfg, |n.votes|) then BecomeLeader(cfg, n, now) else n
    else n
  }

  /** First position from `i` on that is not already in the log with the same term. */
  function FirstNew(v: LogView.View, es: seq<WireEntry>, i: nat): nat
    requires i <= |es|
    decreases |es| - i
  {
    if i == |es| || es[i].index > LogView.LastIndex(v) then i
    else if LogView.TermAt(v, es[i].index) == Some(es[i].term) then FirstNew(v, es, i + 1)
    else i
  }

  lemma FirstNewBound(v: LogView.View, es: seq<WireEntry>, i: nat)
    requires i <= |es|
    ensures i <= FirstNew(v, es, i) <= |es|
    decreases |es| - i
  {
  }

  /** Skip what matches, cut at the first conflict, append the rest; `None` if the cut is refused. */
  function AppendEntriesFrom(v: LogView.View, es: seq<WireEntry>): Option<LogView.View> {
    FirstNewBound(v, es, 0);
    var i := FirstNew(v, es, 0);
    if i == |es| then Some(v)
    else if es[i].index > LogView.LastIndex(v) then Some(LogView.Append(v, es[i..]))
    else match LogView.TruncateFrom(v, es[i].index)
      case None => None
      case Some(w) => Some(LogView.Append(w, es[i..]))
  }

  function FollowLeader(n: Node, now: int, timeout: int, term: nat, leader: NodeId): Node {
    (if term > n.term || n.role != Follower then BecomeFollower(n, now, timeout, term) else n)
    .(leader := Some(leader), electionDeadline := now + timeout, leaderContact := now)
  }

  function OnAppendEntries(cfg: Config, n: Node, now: int, timeout: int, a: Payload): (Node, Payload)
    requires a.AppendEntries?
  {
    if a.term < n.term then (n, AppendEntriesReply(n.term, false, 0))
    else
      var n := FollowLeader(n, now, timeout, a.term, a.leader);
      var last := LogView.LastIndex(n.log);
      if a.prevIndex > last then (n, AppendEntriesReply(n.term, false, last + 1))
      else match LogView.TermAt(n.log, a.prevIndex)
        case None => (n, AppendEntriesReply(n.term, false, last + 1))
        case Some(t) =>
          if t != a.prevTerm then (n, AppendEntriesReply(n.term, false, a.prevIndex))
          else match AppendEntriesFrom(n.log, a.entries)
            case None => (n, AppendEntriesReply(n.term, false, 0))
            case Some(v) =>
              var n := n.(log := v);
              var n := if a.leaderCommit > n.commit
                       then n.(commit := Min(a.leaderCommit, LogView.LastIndex(v))) else n;
              (n, AppendEntriesReply(n.term, true, 0))
  }

  /** The peer is credited with the last index sent to it. */
  function Credit(n: Node, from: NodeId): Node {
    var m := if MatchIndex(n, from) > LastSent(n, from) then MatchIndex(n, from) else LastSent(n, from);
    n.(matched := n.matched[from := m], next := n.next[from := m + 1],
       lastSent := n.lastSent[from := LastSent(n, from)])
  }

  function Backtrack(n: Node, from: NodeId, conflict: nat): Node {
    var hint := if conflict > 0 then conflict else if NextIndex(n, from) > 0 then NextIndex(n, from) - 1 else 0;
    n.(next := n.next[from := if hint < 1 then 1 else hint])
  }

  function OnAppendEntriesReply(cfg: Config, n: Node, now: int, timeout: int, from: NodeId, r: Payload): Node
    requires r.AppendEntriesReply?
  {
    if r.term > n.term then BecomeFollower(n, now, timeout, r.term)
    else if n.role != Leader || r.term != n.term then n
    else if r.success then MaybeTransferTo(cfg, AdvanceCommit(cfg, Credit(n, from)), from)
    else ReplicateTo(cfg, Backtrack(n, from, r.conflictIndex), from)
  }

  function Proposed(n: Node, b: Batch): Node {
    n.(log := n.log.(hist := n.log.hist + [LogEntry(n.term, Data, b)]))
  }

  function Propose(cfg: Config, n: Node, b: Batch): Option<Node> {
    if n.role != Leader then None
    else Some(AdvanceCommit(cfg, ReplicateAll(cfg, Proposed(n, b))))
  }

  function TransferLeadership(cfg: Config, n: Node, target: NodeId): Option<Node> {
    if n.role != Leader || target !in cfg.peers || !IsVoter(cfg, target) then None
    else Some(MaybeTransferTo(cfg, n.(transfer := Some(target)), target))
  }

  function OnTimeoutNow(cfg: Config, n: Node, now: int, timeout: int, a: Payload): Node
    requires a.TimeoutNow?
  {
    if a.term < n.term || !IsVoter(cfg, cfg.self) then n
    else
      var n := if a.term > n.term then BecomeFollower(n, now, timeout, a.term) else n;
      BecomeCandidate(cfg, n, now, timeout)
  }

  function OnInstallSnapshot(cfg: Config, n: Node, now: int, timeout: int, a: Payload): (Node, Payload)
    requires a.InstallSnapshot?
  {
    if a.term < n.term then (n, InstallSnapshotReply(n.term))
    else
      var n := FollowLeader(n, now, timeout, a.term, a.leader);
      match LogView.Install(n.log, a.snapshot)
      case None => (n, InstallSnapshotReply(n.term))
      case Some(v) =>
        var n := n.(log := v);
        var n := if a.snapshot.index > n.commit then n.(commit := a.snapshot.index) else n;
        (n, InstallSnapshotReply(n.term))
  }

  function OnInstallSnapshotReply(cfg: Config, n: Node, now: int, timeout: int, from: NodeId, r: Payload): Node
    requires r.InstallSnapshotReply?
  {
    if r.term > n.term then BecomeFollower(n, now, timeout, r.term)
    else if n.role != Leader || r.term != n.term then n
    else ReplicateTo(cfg, AdvanceCommit(cfg, Credit(n, from)), from)
  }

  // ---------------------------------------------------------------- the carrier

  /** The state was saved and the queued messages were handed to the transport. */
  function Flushed(n: Node): Node {
    n.(dirty := false, outbox := [])
  }

  function Compacted(n: Node, threshold: nat): Node {
    if threshold == 0 || n.commit <= n.log.snap || n.commit - n.log.snap < threshold then n
    else match LogView.CompactTo(n.log, n.commit)
      case None => n
      case Some(v) => n.(log := v)
  }

  /** A node built again over its log, with the term and vote read back from disk. */
  function Restarted(n: Node, term: nat, vote: Option<NodeId>): Node {
    Node(Follower, term, vote, false, 0, map[], map[], 0, None, {}, map[], None, 0, 0, 0, false, [], n.log)
  }

  const FRESH := Node(Follower, 0, None, false, 0, map[], map[], 0, None, {}, map[], None, 0, 0, 0, false, [],
                      LogView.RawView([], 0, 0))
}
