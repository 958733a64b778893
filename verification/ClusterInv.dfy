/** Ties a group of running nodes to the histories of `Protocol`. */
module ClusterInv {
  import opened RaftTypes
  import opened NodeSpec
  import opened Cluster
  import opened Replication
  import LogView
  import opened Protocol
  import opened Actions
  import Majority

  // ---------------------------------------------------------------- one node

  ghost predicate Linked(s: Proto, n: NodeId, x: Node) {
    && n in s.term && s.term[n] == x.term
    && n in s.log && s.log[n] == x.log.hist
    && x.votedFor == (if (n, x.term) in s.votes then Some(s.votes[(n, x.term)]) else None)
  }

  /** Every peer a leader has credited really accepted that much, or the leader has compacted it. */
  ghost predicate Credited(s: Proto, x: Node) {
    s.acked ==> forall p :: MatchIndex(x, p) <= x.log.snap || MatchIndex(x, p) <= Acc(s, p, x.term)
  }

  ghost predicate CandidateOk(g: Group, s: Proto, n: NodeId, x: Node) {
    && (n, x.term) in s.cand && s.cand[(n, x.term)] == x.log.hist
    && (x.term in s.lead ==> s.lead[x.term] != n)
    && x.votes <= Voters(g)
    && VotedFor(s, x.votes, x.term, n)
  }

  ghost predicate LeaderOk(s: Proto, n: NodeId, x: Node) {
    && x.term in s.lead && s.lead[x.term] == n
    && (n, x.term) in s.cand
    && (x.log.snap <= x.commit || x.log.snap <= |s.cand[(n, x.term)]|)
    && Credited(s, x)
  }

  ghost predicate RoleOk(g: Group, s: Proto, n: NodeId, x: Node) {
    && (x.role != Follower ==> n in Voters(g))
    && (x.role == Candidate ==> CandidateOk(g, s, n, x))
    && (x.role == Leader ==> LeaderOk(s, n, x))
  }

  // ---------------------------------------------------------------- messages

  /** A request says what its sender's history says; `snap` is how far the sender has compacted. */
  ghost predicate MsgOk(s: Proto, snap: nat, m: Message) {
    match m.payload
    case RequestVote(t, c, li, lt, pre) =>
      !pre ==> c == m.from && (c, t) in s.cand && li == |s.cand[(c, t)]| && lt == Protocol.LastTerm(s.cand[(c, t)])
    case AppendEntries(t, l, prev, pt, es, lc, ep) =>
      && t in s.lead && s.lead[t] == m.from && m.to != m.from
      && t in s.tlog && Carries(s.tlog[t], prev, pt, es)
    case InstallSnapshot(t, l, sn) =>
      && t in s.lead && s.lead[t] == m.from && m.to != m.from
      && t in s.tlog && sn.history <= s.tlog[t] && sn.index <= snap
    case _ => true
  }

  ghost predicate ReplyOk(s: Proto, snap: nat, p: Packet) {
    var m := p.msg;
    match m.payload
    case RequestVoteReply(t, granted) =>
      granted && p.tag != AnswersPreVote ==> (m.from, t) in s.votes && s.votes[(m.from, t)] == m.to
    case AppendEntriesReply(t, success, _) =>
      success ==> p.tag.Answers? && p.tag.upTo <= Acc(s, m.from, t)
    case InstallSnapshotReply(t) =>
      p.tag.Answers? && (p.tag.upTo <= Acc(s, m.from, t) || (t in s.lead && s.lead[t] == m.to && p.tag.upTo <= snap))
    case _ => true
  }

  ghost predicate Ours(g: Group, n: NodeId, m: Message) {
    m.from == n && m.to in g && m.to != n && !IsReply(m.payload)
  }

  predicate IsReply(a: Payload) {
    a.RequestVoteReply? || a.AppendEntriesReply? || a.InstallSnapshotReply?
  }

  ghost predicate OutboxOk(g: Group, s: Proto, n: NodeId, x: Node) {
    forall m | m in x.outbox :: Ours(g, n, m) && MsgOk(s, x.log.snap, m)
  }

  ghost predicate Setting(g: Group, s: Proto) {
    s.voters == Voters(g) && s.term.Keys == g.Keys
  }

  ghost predicate Good(g: Group, s: History, n: NodeId, x: Node) {
    && n in g
    && Setting(g, s)
    && NodeOk(g, s, n, x)
  }

  ghost predicate PacketOk(g: Group, s: Proto, nodes: map<NodeId, Node>, p: Packet) {
    && p.msg.from in g && p.msg.to in g && p.msg.from != p.msg.to
    && p.msg.from in nodes && p.msg.to in nodes
    && MsgOk(s, nodes[p.msg.from].log.snap, p.msg)
    && ReplyOk(s, nodes[p.msg.to].log.snap, p)
  }

  ghost predicate NodeOk(g: Group, s: Proto, n: NodeId, x: Node) {
    Linked(s, n, x) && RoleOk(g, s, n, x) && OutboxOk(g, s, n, x)
  }

  ghost predicate NodesOk(g: Group, s: Proto, nodes: map<NodeId, Node>) {
    nodes.Keys == g.Keys && forall n | n in nodes :: NodeOk(g, s, n, nodes[n])
  }

  /** Whatever is not dirty is on disk. */
  ghost predicate DiskOk(c: Cluster) {
    && c.disk.Keys == c.nodes.Keys
    && forall n | n in c.nodes :: !c.nodes[n].dirty ==> c.disk[n] == (c.nodes[n].term, c.nodes[n].votedFor)
  }

  ghost predicate NetOk(g: Group, s: Proto, c: Cluster) {
    forall p | p in c.net :: PacketOk(g, s, c.nodes, p)
  }

  ghost predicate CInv(g: Group, s: History, c: Cluster) {
    Setting(g, s) && NodesOk(g, s, c.nodes) && DiskOk(c) && NetOk(g, s, c)
  }

  // ---------------------------------------------------------------- what one node's step may change

  /** Only `n`'s own records changed. */
  ghost predicate Local(s: Proto, s': Proto, n: NodeId) {
    && s'.acked == s.acked
    && s'.log.Keys == s.log.Keys
    && (forall m | m in s.term && m != n :: m in s'.term && s'.term[m] == s.term[m])
    && (forall m | m in s.log && m != n :: s'.log[m] == s.log[m])
    && (forall m, t | (m, t) in s'.votes && m != n :: (m, t) in s.votes)
    && (forall t | t in s'.lead && t !in s.lead :: s'.lead[t] == n)
  }

  ghost predicate Grows(s: Proto, s': Proto, n: NodeId) {
    Extends(s, s') && Local(s, s', n)
  }

  lemma GrowsTrans(a: Proto, b: Proto, c: Proto, n: NodeId)
    requires Grows(a, b, n) && Grows(b, c, n)
    ensures Grows(a, c, n)
  {
    ExtendsTrans(a, b, c);
  }

  lemma ExtendsTrans(a: Proto, b: Proto, c: Proto)
    requires Extends(a, b) && Extends(b, c)
    ensures Extends(a, c)
  {
    forall t | t in a.tlog ensures t in c.tlog && a.tlog[t] <= c.tlog[t] {
      assert a.tlog[t] <= b.tlog[t] <= c.tlog[t];
    }
    forall n, t | n in a.term && t < a.term[n] ensures Acc(c, n, t) == Acc(a, n, t) {
      assert n in b.term && t < b.term[n];
    }
  }

  lemma CarriesStable(l: Log, l': Log, prev: nat, pt: nat, es: seq<WireEntry>)
    requires l <= l' && Carries(l, prev, pt, es)
    ensures Carries(l', prev, pt, es)
  {
    if prev + |es| <= |l| {
      forall k | 0 <= k < |es| && es[k] == LogView.Wire(l, prev + 1 + k) ensures es[k] == LogView.Wire(l', prev + 1 + k) {
        assert l[prev + k] == l'[prev + k];
      }
      assert prev > 0 ==> l[prev - 1] == l'[prev - 1];
    }
  }

  lemma MsgStable(s: Proto, s': Proto, snap: nat, snap': nat, m: Message)
    requires Extends(s, s') && snap <= snap' && MsgOk(s, snap, m)
    ensures MsgOk(s', snap', m)
  {
    match m.payload
    case AppendEntries(t, l, prev, pt, es, lc, ep) => CarriesStable(s.tlog[t], s'.tlog[t], prev, pt, es);
    case _ =>
  }

  lemma ReplyStable(s: Proto, s': Proto, snap: nat, snap': nat, p: Packet)
    requires Extends(s, s') && snap <= snap' && ReplyOk(s, snap, p)
    ensures ReplyOk(s', snap', p)
  {
  }

  lemma OutboxStable(g: Group, s: Proto, s': Proto, n: NodeId, x: Node, y: Node)
    requires Extends(s, s') && OutboxOk(g, s, n, x)
    requires y.outbox == x.outbox && x.log.snap <= y.log.snap
    ensures OutboxOk(g, s', n, y)
  {
    forall m | m in y.outbox ensures Ours(g, n, m) && MsgOk(s', y.log.snap, m) {
      MsgStable(s, s', x.log.snap, y.log.snap, m);
    }
  }

  lemma OtherNodeStable(g: Group, s: Proto, s': Proto, n: NodeId, m: NodeId, x: Node)
    requires Grows(s, s', n) && m != n && NodeOk(g, s, m, x)
    ensures NodeOk(g, s', m, x)
  {
    OutboxStable(g, s, s', m, x, x);
  }

  lemma NodesStable(g: Group, s: Proto, s': Proto, nodes: map<NodeId, Node>, n: NodeId, y: Node)
    requires NodesOk(g, s, nodes) && n in g && Grows(s, s', n) && NodeOk(g, s', n, y)
    ensures NodesOk(g, s', nodes[n := y])
  {
    forall m | m in nodes && m != n ensures NodeOk(g, s', m, nodes[m]) {
      OtherNodeStable(g, s, s', n, m, nodes[m]);
    }
  }

  lemma PacketStable(g: Group, s: Proto, s': Proto, nodes: map<NodeId, Node>, n: NodeId, y: Node, p: Packet)
    requires PacketOk(g, s, nodes, p) && Extends(s, s')
    requires n in nodes && nodes[n].log.snap <= y.log.snap
    ensures PacketOk(g, s', nodes[n := y], p)
  {
    var nodes' := nodes[n := y];
    MsgStable(s, s', nodes[p.msg.from].log.snap, nodes'[p.msg.from].log.snap, p.msg);
    ReplyStable(s, s', nodes[p.msg.to].log.snap, nodes'[p.msg.to].log.snap, p);
  }

  lemma NetStable(g: Group, s: Proto, s': Proto, c: Cluster, c': Cluster, n: NodeId, y: Node)
    requires NetOk(g, s, c) && Extends(s, s')
    requires n in c.nodes && c.nodes[n].log.snap <= y.log.snap
    requires c'.nodes == c.nodes[n := y]
    requires forall p | p in c'.net && p !in c.net :: PacketOk(g, s', c'.nodes, p)
    ensures NetOk(g, s', c')
  {
    forall p | p in c'.net && p in c.net ensures PacketOk(g, s', c'.nodes, p) {
      PacketStable(g, s, s', c.nodes, n, y, p);
    }
  }

  /** A step of one node that leaves it good leaves the whole cluster good. */
  lemma StepIsLocal(g: Group, s: History, s': History, c: Cluster, c': Cluster, n: NodeId, y: Node)
    requires CInv(g, s, c) && n in g
    requires Grows(s, s', n) && Good(g, s', n, y)
    requires c.nodes[n].log.snap <= y.log.snap
    requires c'.nodes == c.nodes[n := y]
    requires DiskOk(c')
    requires forall p | p in c'.net && p !in c.net :: PacketOk(g, s', c'.nodes, p)
    ensures CInv(g, s', c')
  {
    NodesStable(g, s, s', c.nodes, n, y);
    NetStable(g, s, s', c, c', n, y);
  }

  lemma UnackedNode(g: Group, s: Proto, n: NodeId, x: Node)
    requires NodeOk(g, s, n, x)
    ensures NodeOk(g, s.(acked := false), n, x)
  {
    OutboxStable(g, s, s.(acked := false), n, x, x);
  }

  lemma UnackedPacket(g: Group, s: Proto, nodes: map<NodeId, Node>, p: Packet)
    requires PacketOk(g, s, nodes, p)
    ensures PacketOk(g, s.(acked := false), nodes, p)
  {
    var s' := s.(acked := false);
    var a, b := nodes[p.msg.from].log.snap, nodes[p.msg.to].log.snap;
    MsgStable(s, s', a, a, p.msg);
    ReplyStable(s, s', b, b, p);
  }

  /** Once some acknowledgement was not the latest, nothing is claimed about credits any more. */
  lemma ForgetAcks(g: Group, s: History, c: Cluster) returns (s': History)
    requires CInv(g, s, c)
    ensures s' == s.(acked := false) && CInv(g, s', c)
  {
    s' := Unacked(s);
    forall n | n in c.nodes ensures NodeOk(g, s', n, c.nodes[n]) {
      UnackedNode(g, s, n, c.nodes[n]);
    }
    forall p | p in c.net ensures PacketOk(g, s', c.nodes, p) {
      UnackedPacket(g, s, c.nodes, p);
    }
  }
}
