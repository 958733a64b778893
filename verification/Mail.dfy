/** What the messages a node queues say about its commit index and its snapshot. */
module Mail {
  import opened RaftTypes
  import opened NodeSpec
  import opened Cluster
  import LogView

  /** A request sent by node `y` promises no more than `y` itself has, and reaches its log end unless full. */
  ghost predicate Promises(y: Node, m: Message) {
    match m.payload
    case AppendEntries(t, _, prev, _, es, lc, _) =>
      t == y.term && lc <= y.commit && (|es| < MAX_ENTRIES ==> |y.log.hist| <= prev + |es|)
    case InstallSnapshot(t, _, s) => t == y.term && s.history <= y.log.hist && s.index <= y.log.snap
    case _ => true
  }

  ghost predicate NewMail(x: Node, y: Node) {
    forall m | m in y.outbox :: m in x.outbox || Promises(y, m)
  }

  /** Same term, log and commit index. */
  ghost predicate SameTenure(x: Node, y: Node) {
    y.term == x.term && y.log == x.log && y.commit == x.commit
  }

  lemma {:induction false} BroadcastMail(cfg: Config, x: Node, pre: bool, k: nat)
    requires k <= |cfg.peers|
    ensures var y := BroadcastTo(cfg, x, pre, k);
            SameTenure(x, y) && y.role == x.role && NewMail(x, y)
  {
    if k > 0 {
      BroadcastMail(cfg, x, pre, k - 1);
    }
  }

  lemma ReplicateMail(cfg: Config, x: Node, p: NodeId)
    ensures var y := ReplicateTo(cfg, x, p);
            SameTenure(x, y) && y.role == x.role && NewMail(x, y)
  {
  }

  lemma {:induction false} ReplicateFirstMail(cfg: Config, x: Node, k: nat)
    requires k <= |cfg.peers|
    ensures var y := ReplicateFirst(cfg, x, k);
            SameTenure(x, y) && y.role == x.role && NewMail(x, y)
  {
    if k > 0 {
      ReplicateFirstMail(cfg, x, k - 1);
      ReplicateMail(cfg, ReplicateFirst(cfg, x, k - 1), cfg.peers[k - 1]);
    }
  }

  lemma LeaderMail(cfg: Config, x: Node, now: int)
    ensures var y := BecomeLeader(cfg, x, now);
            SameTenure(x, y) && y.role == Leader && NewMail(x, y)
  {
    ReplicateFirstMail(cfg, Crowned(cfg, x, now), |cfg.peers|);
  }

  /** Same log and commit index; the term may have moved on. */
  ghost predicate SameLog(x: Node, y: Node) {
    y.log == x.log && y.commit == x.commit && x.term <= y.term
  }

  lemma CandidateMail(cfg: Config, x: Node, now: int, timeout: int)
    ensures var y := BecomeCandidate(cfg, x, now, timeout);
            SameLog(x, y) && NewMail(x, y)
  {
    var z := Standing(cfg, x, now, timeout);
    if HasMajority(cfg, 1) {
      LeaderMail(cfg, z, now);
    } else {
      BroadcastMail(cfg, z, false, |cfg.peers|);
    }
  }

  lemma PreElectionMail(cfg: Config, x: Node, now: int, timeout: int)
    ensures var y := StartPreElection(cfg, x, now, timeout);
            SameLog(x, y) && NewMail(x, y)
  {
    var z := Probing(cfg, x, now, timeout);
    if HasMajority(cfg, 1) {
      CandidateMail(cfg, z, now, timeout);
    } else {
      BroadcastMail(cfg, z, true, |cfg.peers|);
    }
  }

  lemma TransferMail(cfg: Config, x: Node, p: NodeId)
    ensures var y := MaybeTransferTo(cfg, x, p);
            SameTenure(x, y) && y.role == x.role && NewMail(x, y)
  {
    if x.transfer == Some(p) && MatchIndex(x, p) < LogView.LastIndex(x.log) {
      ReplicateMail(cfg, x, p);
    }
  }

  lemma CommitMail(cfg: Config, x: Node)
    ensures var y := AdvanceCommit(cfg, x);
            y == x.(commit := y.commit) && x.commit <= y.commit
  {
  }

  /** A later state with the same term and log and no smaller commit index keeps its promises. */
  lemma MailTrans(x: Node, y: Node, z: Node)
    requires NewMail(x, y) && NewMail(y, z)
    requires y.term == z.term && y.log == z.log && y.commit <= z.commit
    ensures NewMail(x, z)
  {
  }
}
