/**
  The replica as an object: handlers that update its fields in place and queue messages, each
  proved to compute the step `NodeSpec` gives for it.
 */
module RaftNodes {
  import opened Common
  import opened RaftTypes
  import opened NodeSpec
  import LogView

  class RaftNode {
    const cfg: Config
    var role: Role
    var term: nat
    var votedFor: Option<NodeId>
    var dirty: bool
    var commit: nat
    var next: map<NodeId, nat>
    var matched: map<NodeId, nat>
    var epoch: int
    var leader: Option<NodeId>
    var votes: set<NodeId>
    var lastSent: map<NodeId, nat>
    var transfer: Option<NodeId>
    var electionDeadline: int
    var leaderContact: int
    var heartbeatDeadline: int
    var started: bool
    var outbox: seq<Message>
    var log: LogView.View

    function State(): Node
      reads this
    {
      Node(role, term, votedFor, dirty, commit, next, matched, epoch, leader, votes, lastSent, transfer,
           electionDeadline, leaderContact, heartbeatDeadline, started, outbox, log)
    }

    constructor (c: Config, l: LogView.View)
      ensures cfg == c && State() == FRESH.(log := l)
    {
      cfg := c;
      role, term, votedFor, dirty, commit := Follower, 0, None, false, 0;
      next, matched, epoch, leader, votes, lastSent, transfer := map[], map[], 0, None, {}, map[], None;
      electionDeadline, leaderContact, heartbeatDeadline, started, outbox, log := 0, 0, 0, false, [], l;
    }

    /** What the host found on disk, put back before the first input. */
    method Restore(t: nat, v: Option<NodeId>)
      modifies this`term, this`votedFor, this`dirty
      ensures State() == old(State()).(term := t, votedFor := v, dirty := false)
    {
      term, votedFor, dirty := t, v, false;
    }

    // -------------------------------------------------------------- membership

    method CountMembers() returns (voters: nat)
      ensures voters == ClusterSize(cfg)
    {
      voters := if IsVoter(cfg, cfg.self) then 1 else 0;
      ghost var mine := voters;
      for i := 0 to |cfg.peers|
        invariant voters == mine + CountVoters(cfg.peers[..i], cfg.learners)
      {
        assert cfg.peers[..i + 1][..i] == cfg.peers[..i];
        voters := voters + (if IsVoter(cfg, cfg.peers[i]) then 1 else 0);
      }
      assert cfg.peers[..|cfg.peers|] == cfg.peers;
    }

    method IsMajority(n: nat) returns (r: bool)
      ensures r == HasMajority(cfg, n)
    {
      var size := CountMembers();
      r := n * 2 > size;
    }

    // -------------------------------------------------------------- sending

    method SendTo(to: NodeId, p: Payload)
      modifies this`outbox
      ensures State() == Send(cfg, old(State()), to, p)
    {
      outbox := outbox + [Message(cfg.self, to, p)];
    }

    method BroadcastRequestVote(pre: bool)
      modifies this`outbox
      ensures State() == BroadcastTo(cfg, old(State()), pre, |cfg.peers|)
    {
      ghost var start := State();
      var args := RequestVote(if pre then term + 1 else term, cfg.self, LogView.LastIndex(log), LogView.LastTerm(log), pre);
      for i := 0 to |cfg.peers|
        invariant State() == BroadcastTo(cfg, start, pre, i)
      {
        if IsVoter(cfg, cfg.peers[i]) {
          SendTo(cfg.peers[i], args);
        }
      }
    }

    method SendSnapshot(peer: NodeId)
      modifies this`outbox, this`lastSent
      ensures State() == SendSnapshotTo(cfg, old(State()), peer)
    {
      lastSent := lastSent[peer := log.snap];
      SendTo(peer, InstallSnapshot(term, cfg.self, SnapshotOf(log)));
    }

    method Replicate(peer: NodeId)
      modifies this`outbox, this`lastSent
      ensures State() == ReplicateTo(cfg, old(State()), peer)
    {
      var n := NextIndex(State(), peer);
      if n <= log.snap {
        SendSnapshot(peer);
        return;
      }
      var prevTerm := LogView.TermAt(log, n - 1);
      var entries := LogView.EntriesFrom(log, n, MAX_ENTRIES);
      var payload := if entries.Some? then entries.value else [];
      lastSent := lastSent[peer := if payload == [] then n - 1 else payload[|payload| - 1].index];
      SendTo(peer, AppendEntries(term, cfg.self, n - 1, if prevTerm.Some? then prevTerm.value else 0, payload, commit, epoch));
    }

    method ReplicateEach()
      modifies this`outbox, this`lastSent
      ensures State() == ReplicateAll(cfg, old(State()))
    {
      ghost var start := State();
      for i := 0 to |cfg.peers|
        invariant State() == ReplicateFirst(cfg, start, i)
      {
        ReplicateNext(i, start);
      }
    }

    method ReplicateNext(i: nat, ghost start: Node)
      requires i < |cfg.peers| && State() == ReplicateFirst(cfg, start, i)
      modifies this`outbox, this`lastSent
      ensures State() == ReplicateFirst(cfg, start, i + 1)
    {
      NextPeer(cfg, start, i, State());
      Replicate(cfg.peers[i]);
    }

    // -------------------------------------------------------------- roles

    method Advance(t: nat)
      modifies this`term, this`votedFor, this`dirty
      ensures State() == AdvanceTerm(old(State()), t)
    {
      term, votedFor, dirty := t, None, true;
    }

    method Vote(c: NodeId)
      modifies this`votedFor, this`dirty
      ensures State() == RecordVote(old(State()), c)
    {
      votedFor, dirty := Some(c), true;
    }

    /** Votes, progress and a pending transfer go with the role. */
    method ForgetRole()
      modifies this`next, this`matched, this`votes, this`transfer
      ensures State() == old(State()).(next := map[], matched := map[], votes := {}, transfer := None)
    {
      next, matched := map[], map[];
      votes := {};
      transfer := None;
    }

    method StepDown(now: int, timeout: int, t: nat)
      modifies this
      ensures State() == BecomeFollower(old(State()), now, timeout, t)
    {
      if t > term {
        Advance(t);
      }
      ForgetRole();
      role := Follower;
      electionDeadline := now + timeout;
    }

    /** Every peer starts one past this log, with nothing confirmed. */
    method ResetLeaderProgress()
      modifies this`next, this`matched
      ensures State() == old(State()).(next := map p | p in cfg.peers :: LogView.LastIndex(log) + 1,
                                       matched := map p | p in cfg.peers :: 0)
    {
      var first := LogView.LastIndex(log) + 1;
      next := AllPeers(first);
      matched := AllPeers(0);
    }

    method AllPeers(k: nat) returns (m: map<NodeId, nat>)
      ensures m == map p | p in cfg.peers :: k
    {
      m := map[];
      for i := 0 to |cfg.peers|
        invariant m == map p | p in cfg.peers[..i] :: k
      {
        m := m[cfg.peers[i] := k];
      }
      assert cfg.peers[..|cfg.peers|] == cfg.peers;
    }

    method TakeOffice()
      modifies this`role, this`leader, this`epoch
      ensures State() == old(State()).(role := Leader, leader := Some(cfg.self), epoch := old(epoch) + 1)
    {
      role := Leader;
      leader := Some(cfg.self);
      epoch := epoch + 1;
    }

    method Settle(now: int)
      modifies this`lastSent, this`transfer, this`heartbeatDeadline
      ensures State() == old(State()).(lastSent := map[], transfer := None, heartbeatDeadline := now + cfg.heartbeat)
    {
      lastSent := map[];
      transfer := None;
      heartbeatDeadline := now + cfg.heartbeat;
    }

    method Crown(now: int)
      modifies this
      ensures State() == Crowned(cfg, old(State()), now)
    {
      TakeOffice();
      ResetLeaderProgress();
      Settle(now);
    }

    method Lead(now: int)
      modifies this
      ensures State() == BecomeLeader(cfg, old(State()), now)
    {
      Crown(now);
      ReplicateEach();
    }

    /** A fresh count that starts with this node's own vote. */
    method Campaign(r: Role, now: int, timeout: int)
      modifies this`role, this`leader, this`votes, this`electionDeadline
      ensures State() == old(State()).(role := r, leader := None, votes := {cfg.self}, electionDeadline := now + timeout)
    {
      role := r;
      leader := None;
      votes := {cfg.self};
      electionDeadline := now + timeout;
    }

    method Stand(now: int, timeout: int)
      modifies this
      ensures State() == BecomeCandidate(cfg, old(State()), now, timeout)
    {
      Advance(term + 1);
      Vote(cfg.self);
      Campaign(Candidate, now, timeout);
      var won := IsMajority(|votes|);
      if won {
        Lead(now);
      } else {
        BroadcastRequestVote(false);
      }
    }

    method Probe(now: int, timeout: int)
      modifies this
      ensures State() == StartPreElection(cfg, old(State()), now, timeout)
    {
      Campaign(PreCandidate, now, timeout);
      var won := IsMajority(|votes|);
      if won {
        Stand(now, timeout);
      } else {
        BroadcastRequestVote(true);
      }
    }

    method OnTick(now: int, timeout: int)
      modifies this
      ensures State() == Tick(cfg, old(State()), now, timeout)
    {
      if !started {
        started := true;
        electionDeadline := now + timeout;
      } else if role == Leader {
        if now >= heartbeatDeadline {
          heartbeatDeadline := now + cfg.heartbeat;
          ReplicateEach();
        }
      } else if now >= electionDeadline && IsVoter(cfg, cfg.self) {
        Probe(now, timeout);
      }
    }

    // -------------------------------------------------------------- votes

    method IsUpToDate(lastIndex: nat, lastTerm: nat) returns (r: bool)
      ensures r == LogIsUpToDate(State(), lastIndex, lastTerm)
    {
      var mine := LogView.LastTerm(log);
      if lastTerm != mine {
        return lastTerm > mine;
      }
      r := lastIndex >= LogView.LastIndex(log);
    }

    method MakePreVoteReply(now: int, a: Payload) returns (r: Payload)
      requires a.RequestVote?
      ensures r == PreVoteReply(cfg, State(), now, a)
    {
      if a.term < term || role == Leader || now - leaderContact < cfg.electionMin {
        return RequestVoteReply(term, false);
      }
      var granted := IsUpToDate(a.lastIndex, a.lastTerm);
      r := RequestVoteReply(term, granted);
    }

    method HandleRequestVote(now: int, timeout: int, a: Payload) returns (r: Payload)
      requires a.RequestVote?
      modifies this
      ensures (State(), r) == OnRequestVote(cfg, old(State()), now, timeout, a)
    {
      if a.preVote {
        r := MakePreVoteReply(now, a);
        return;
      }
      if a.term > term {
        StepDown(now, timeout, a.term);
      }
      if a.term < term {
        return RequestVoteReply(term, false);
      }
      var upToDate := IsUpToDate(a.lastIndex, a.lastTerm);
      var granted := (votedFor == None || votedFor == Some(a.candidate)) && upToDate;
      if granted {
        Vote(a.candidate);
        electionDeadline := now + timeout;
      }
      r := RequestVoteReply(term, granted);
    }

    method HandleRequestVoteReply(now: int, timeout: int, from: NodeId, r: Payload)
      requires r.RequestVoteReply?
      modifies this
      ensures State() == OnRequestVoteReply(cfg, old(State()), now, timeout, from, r)
    {
      if r.term > term {
        StepDown(now, timeout, r.term);
      } else if role == PreCandidate {
        if r.term == term && r.granted && IsVoter(cfg, from) {
          votes := votes + {from};
          var won := IsMajority(|votes|);
          if won {
            Stand(now, timeout);
          }
        }
      } else if role == Candidate && r.term == term {
        if r.granted && IsVoter(cfg, from) {
          votes := votes + {from};
          var won := IsMajority(|votes|);
          if won {
            Lead(now);
          }
        }
      }
    }

    method HandleTimeoutNow(now: int, timeout: int, a: Payload)
      requires a.TimeoutNow?
      modifies this
      ensures State() == OnTimeoutNow(cfg, old(State()), now, timeout, a)
    {
      if a.term < term || !IsVoter(cfg, cfg.self) {
        return;
      }
      if a.term > term {
        StepDown(now, timeout, a.term);
      }
      Stand(now, timeout);
    }

    // -------------------------------------------------------------- following

    method Follow(now: int, timeout: int, t: nat, l: NodeId)
      modifies this
      ensures State() == FollowLeader(old(State()), now, timeout, t, l)
    {
      if t > term || role != Follower {
        StepDown(now, timeout, t);
      }
      leader := Some(l);
      electionDeadline := now + timeout;
      leaderContact := now;
    }

    /** Skips what the log already has, cuts at the first conflict, appends the rest. */
    method TakeEntries(es: seq<WireEntry>) returns (ok: bool)
      modifies this`log
      ensures ok <==> AppendEntriesFrom(old(log), es).Some?
      ensures log == if ok then AppendEntriesFrom(old(log), es).value else old(log)
    {
      var i := 0;
      while i < |es|
        invariant i <= |es| && log == old(log) && FirstNew(log, es, 0) == FirstNew(log, es, i)
      {
        if es[i].index > LogView.LastIndex(log) {
          break;
        }
        if LogView.TermAt(log, es[i].index) != Some(es[i].term) {
          var cut := LogView.TruncateFrom(log, es[i].index);
          if cut.None? {
            return false;
          }
          log := cut.value;
          break;
        }
        i := i + 1;
      }
      if i < |es| {
        log := LogView.Append(log, es[i..]);
      }
      ok := true;
    }

    method HandleAppendEntries(now: int, timeout: int, a: Payload) returns (r: Payload)
      requires a.AppendEntries?
      modifies this
      ensures (State(), r) == OnAppendEntries(cfg, old(State()), now, timeout, a)
    {
      if a.term < term {
        return AppendEntriesReply(term, false, 0);
      }
      Follow(now, timeout, a.term, a.leader);
      var last := LogView.LastIndex(log);
      if a.prevIndex > last {
        return AppendEntriesReply(term, false, last + 1);
      }
      var prevTerm := LogView.TermAt(log, a.prevIndex);
      if prevTerm.None? {
        return AppendEntriesReply(term, false, last + 1);
      }
      if prevTerm.value != a.prevTerm {
        return AppendEntriesReply(term, false, a.prevIndex);
      }
      var ok := TakeEntries(a.entries);
      if !ok {
        return AppendEntriesReply(term, false, 0);
      }
      if a.leaderCommit > commit {
        commit := Min(a.leaderCommit, LogView.LastIndex(log));
      }
      r := AppendEntriesReply(term, true, 0);
    }

    method HandleInstallSnapshot(now: int, timeout: int, a: Payload) returns (r: Payload)
      requires a.InstallSnapshot?
      modifies this
      ensures (State(), r) == OnInstallSnapshot(cfg, old(State()), now, timeout, a)
    {
      if a.term < term {
        return InstallSnapshotReply(term);
      }
      Follow(now, timeout, a.term, a.leader);
      r := InstallSnapshotReply(term);
      var installed := LogView.Install(log, a.snapshot);
      if installed.None? {
        return;
      }
      log := installed.value;
      if a.snapshot.index > commit {
        commit := a.snapshot.index;
      }
    }

    // -------------------------------------------------------------- leading

    /** The index a majority holds: the middle of the sorted matches of the voters. */
    method AdvanceCommitIndex()
      modifies this`commit
      ensures State() == AdvanceCommit(cfg, old(State()))
    {
      var matches := if IsVoter(cfg, cfg.self) then [LogView.LastIndex(log)] else [];
      ghost var mine := matches;
      for i := 0 to |cfg.peers|
        invariant matches == mine + PeerMatches(cfg, State(), i) && State() == old(State())
      {
        if IsVoter(cfg, cfg.peers[i]) {
          matches := matches + [MatchIndex(State(), cfg.peers[i])];
        }
      }
      if matches == [] {
        return;
      }
      var candidate := MajorityMatch(matches);
      if candidate > commit && LogView.TermAt(log, candidate) == Some(term) {
        commit := candidate;
      }
    }

    method MaybeTransfer(peer: NodeId)
      modifies this`outbox, this`lastSent, this`transfer
      ensures State() == MaybeTransferTo(cfg, old(State()), peer)
    {
      if transfer != Some(peer) {
        return;
      }
      if MatchIndex(State(), peer) >= LogView.LastIndex(log) {
        SendTo(peer, TimeoutNow(term, cfg.self));
        transfer := None;
      } else {
        Replicate(peer);
      }
    }

    method CreditPeer(from: NodeId)
      modifies this`lastSent, this`matched, this`next
      ensures State() == Credit(old(State()), from)
    {
      var sent, known := LastSent(State(), from), MatchIndex(State(), from);
      lastSent := lastSent[from := sent];
      matched := matched[from := if known > sent then known else sent];
      next := next[from := matched[from] + 1];
    }

    method HandleAppendEntriesReply(now: int, timeout: int, from: NodeId, r: Payload)
      requires r.AppendEntriesReply?
      modifies this
      ensures State() == OnAppendEntriesReply(cfg, old(State()), now, timeout, from, r)
    {
      if r.term > term {
        StepDown(now, timeout, r.term);
        return;
      }
      if role != Leader || r.term != term {
        return;
      }
      if r.success {
        CreditPeer(from);
        AdvanceCommitIndex();
        MaybeTransfer(from);
        return;
      }
      var hint := if r.conflictIndex > 0 then r.conflictIndex else NextIndex(State(), from) - 1;
      next := next[from := if hint < 1 then 1 else hint];
      Replicate(from);
    }

    method HandleInstallSnapshotReply(now: int, timeout: int, from: NodeId, r: Payload)
      requires r.InstallSnapshotReply?
      modifies this
      ensures State() == OnInstallSnapshotReply(cfg, old(State()), now, timeout, from, r)
    {
      if r.term > term {
        StepDown(now, timeout, r.term);
        return;
      }
      if role != Leader || r.term != term {
        return;
      }
      CreditPeer(from);
      AdvanceCommitIndex();
      Replicate(from);
    }

    /** Leader only: a new entry of this term at the end of the log; answers its index. */
    method ProposeBatch(b: Batch) returns (index: Option<nat>)
      modifies this
      ensures State() == (match Propose(cfg, old(State()), b) case None => old(State()) case Some(y) => y)
      ensures index == if old(role) == Leader then Some(|old(log).hist| + 1) else None
    {
      if role != Leader {
        return None;
      }
      log := log.(hist := log.hist + [LogEntry(term, Data, b)]);
      index := Some(LogView.LastIndex(log));
      ReplicateEach();
      AdvanceCommitIndex();
    }

    method Transfer(target: NodeId) returns (ok: bool)
      modifies this
      ensures ok <==> TransferLeadership(cfg, old(State()), target).Some?
      ensures State() == (match TransferLeadership(cfg, old(State()), target) case None => old(State()) case Some(y) => y)
    {
      if role != Leader || target !in cfg.peers || !IsVoter(cfg, target) {
        return false;
      }
      transfer := Some(target);
      MaybeTransfer(target);
      ok := true;
    }

    // -------------------------------------------------------------- the host

    /** Hands the queued messages over, once term and vote are saved. */
    method Flush() returns (sent: seq<Message>)
      modifies this`dirty, this`outbox
      ensures sent == old(outbox) && State() == Flushed(old(State()))
    {
      dirty := false;
      sent := outbox;
      outbox := [];
    }

    method MaybeCompact(threshold: nat)
      modifies this`log
      ensures State() == Compacted(old(State()), threshold)
    {
      if threshold == 0 || commit <= log.snap || commit - log.snap < threshold {
        return;
      }
      var compacted := LogView.CompactTo(log, commit);
      if compacted.Some? {
        log := compacted.value;
      }
    }
  }
}
