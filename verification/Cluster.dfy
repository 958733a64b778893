/**
  A replica group: one node per member and a network that may lose, duplicate and reorder. What was
  ever sent stays in `net`; an event may deliver any of it, any number of times, or never.
 */
module Cluster {
  import opened Common
  import opened RaftTypes
  import opened NodeSpec
  import LogView

  type Configs = map<NodeId, Config>

  /** Every member knows the same members and the same learners. */
  ghost predicate ValidGroup(g: Configs) {
    forall n | n in g ::
      && g[n].self == n
      && n !in g[n].peers
      && (forall m :: m in g[n].peers <==> m in g && m != n)
      && (forall i, j | 0 <= i < j < |g[n].peers| :: g[n].peers[i] != g[n].peers[j])
      && (forall m, k | m in g && k in g :: k in g[n].learners <==> k in g[m].learners)
  }

  type Group = g: Configs | ValidGroup(g) ghost witness map[]

  ghost function Voters(g: Group): set<NodeId> {
    set n | n in g && n !in g[n].learners
  }

  /**
    History of a packet, not on the wire and not seen by any handler: a vote reply may answer a
    pre-vote, and an acknowledgement answers a request that reached up to some index.
   */
  datatype Tag = Plain | AnswersPreVote | Answers(upTo: nat)

  datatype Packet = Packet(msg: Message, tag: Tag)

  datatype Cluster = Cluster(
    nodes: map<NodeId, Node>,
    disk: map<NodeId, (nat, Option<NodeId>)>,  // saved term and vote
    net: set<Packet>)

  datatype Event =
    | ETick(n: NodeId, now: int, timeout: int)
    | EDeliver(p: Packet, now: int, timeout: int)
    | EPropose(n: NodeId, batch: Batch)
    | ETransfer(n: NodeId, target: NodeId)
    | EFlush(n: NodeId)
    | ECompact(n: NodeId, threshold: nat)
    | ERestart(n: NodeId)

  function Init(g: Group): Cluster {
    Cluster(map n | n in g :: FRESH, map n | n in g :: (0, None), {})
  }

  function Actor(e: Event): NodeId {
    if e.EDeliver? then e.p.msg.to else e.n
  }

  predicate Enabled(g: Group, c: Cluster, e: Event) {
    && Actor(e) in g && Actor(e) in c.nodes && Actor(e) in c.disk
    && (e.EDeliver? ==> e.p in c.net)
  }

  /** What the node does with a packet, and the reply it emits at once. */
  function Handle(cfg: Config, x: Node, p: Packet, now: int, timeout: int): (Node, Option<Packet>) {
    var m := p.msg;
    var a := m.payload;
    match a
    case RequestVote(_, _, _, _, pre) =>
      var (y, r) := OnRequestVote(cfg, x, now, timeout, a);
      (y, Some(Packet(Message(cfg.self, m.from, r), if pre then AnswersPreVote else Plain)))
    case AppendEntries(_, _, prev, _, es, _, _) =>
      var (y, r) := OnAppendEntries(cfg, x, now, timeout, a);
      (y, Some(Packet(Message(cfg.self, m.from, r), Answers(if r.success then prev + |es| else 0))))
    case InstallSnapshot(_, _, s) =>
      var (y, r) := OnInstallSnapshot(cfg, x, now, timeout, a);
      (y, Some(Packet(Message(cfg.self, m.from, r), Answers(if Installs(x, a) then s.index else 0))))
    case TimeoutNow(_, _) => (OnTimeoutNow(cfg, x, now, timeout, a), None)
    case RequestVoteReply(_, _) => (OnRequestVoteReply(cfg, x, now, timeout, m.from, a), None)
    case AppendEntriesReply(_, _, _) => (OnAppendEntriesReply(cfg, x, now, timeout, m.from, a), None)
    case InstallSnapshotReply(_) => (OnInstallSnapshotReply(cfg, x, now, timeout, m.from, a), None)
  }

  /** The snapshot is taken in (or is older than the one the node has). */
  predicate Installs(x: Node, a: Payload)
    requires a.InstallSnapshot?
  {
    a.term >= x.term && LogView.Install(x.log, a.snapshot).Some?
  }

  /** The acting node after the event. */
  function After(g: Group, c: Cluster, e: Event): Node
    requires Enabled(g, c, e)
  {
    var cfg, x := g[Actor(e)], c.nodes[Actor(e)];
    match e
    case ETick(_, now, timeout) => Tick(cfg, x, now, timeout)
    case EDeliver(p, now, timeout) => Handle(cfg, x, p, now, timeout).0
    case EPropose(_, b) => (match Propose(cfg, x, b) case None => x case Some(y) => y)
    case ETransfer(_, target) => (match TransferLeadership(cfg, x, target) case None => x case Some(y) => y)
    case EFlush(_) => Flushed(x)
    case ECompact(_, threshold) => Compacted(x, threshold)
    case ERestart(n) => Restarted(x, c.disk[n].0, c.disk[n].1)
  }

  /** What reaches the network with the event. */
  function Emitted(g: Group, c: Cluster, e: Event): set<Packet>
    requires Enabled(g, c, e)
  {
    var cfg, x := g[Actor(e)], c.nodes[Actor(e)];
    match e
    case EDeliver(p, now, timeout) =>
      var r := Handle(cfg, x, p, now, timeout).1;
      if r.Some? then {r.value} else {}
    case EFlush(_) => set m | m in x.outbox :: Packet(m, Plain)
    case _ => {}
  }

  function Next(g: Group, c: Cluster, e: Event): Cluster
    requires Enabled(g, c, e)
  {
    var n, y := Actor(e), After(g, c, e);
    Cluster(c.nodes[n := y],
            if e.EFlush? then c.disk[n := (y.term, y.votedFor)] else c.disk,
            c.net + Emitted(g, c, e))
  }

  // ---------------------------------------------------------------- what the transport and the host owe

  /** A granted pre-vote is not delivered to a node that already counts real votes of that term. */
  predicate VoteKindKept(c: Cluster, e: Event) {
    e.EDeliver? && e.p.msg.to in c.nodes && e.p.tag == AnswersPreVote && e.p.msg.payload.RequestVoteReply? ==>
      var x := c.nodes[e.p.msg.to];
      !(x.role == Candidate && e.p.msg.payload.term == x.term && e.p.msg.payload.granted)
  }

  /** A node only restarts once its term and vote are saved. */
  predicate RestartsClean(c: Cluster, e: Event) {
    e.ERestart? && e.n in c.nodes ==> !c.nodes[e.n].dirty
  }

  /** The acknowledgement a leader credits answers a request that reached what it last sent there. */
  predicate AckIsLatest(c: Cluster, e: Event) {
    e.EDeliver? && e.p.msg.to in c.nodes ==>
      var x, a, from := c.nodes[e.p.msg.to], e.p.msg.payload, e.p.msg.from;
      x.role == Leader && ((a.AppendEntriesReply? && a.success) || a.InstallSnapshotReply?) && a.term == x.term ==>
        LastSent(x, from) <= MatchIndex(x, from) || (e.p.tag.Answers? && LastSent(x, from) <= e.p.tag.upTo)
  }

  /** A follower does not move its commit index past what the request itself covers. */
  predicate CommitIsCovered(g: Group, c: Cluster, e: Event) {
    e.EDeliver? && Enabled(g, c, e) && e.p.msg.payload.AppendEntries? ==>
      var x, y, a := c.nodes[Actor(e)], After(g, c, e), e.p.msg.payload;
      y.commit == x.commit || y.commit <= a.prevIndex + |a.entries|
  }

  /**
    The node would accept the request, already holds all of it and more, and the leader's commit index
    lies past the request as well.
   */
  predicate Overreaches(x: Node, a: Payload)
    requires a.AppendEntries?
  {
    var last := LogView.LastIndex(x.log);
    && a.term >= x.term && a.prevIndex <= last && LogView.TermAt(x.log, a.prevIndex) == Some(a.prevTerm)
    && FirstNew(x.log, a.entries, 0) == |a.entries|
    && Min(a.leaderCommit, last) > a.prevIndex + |a.entries|
    && a.leaderCommit > x.commit && last != x.commit
  }

  predicate IsFull(a: Payload) {
    a.AppendEntries? && |a.entries| >= MAX_ENTRIES
  }

  /** No full request is delivered to a node whose log goes on past it while the leader has committed past it. */
  predicate FullRequestCovers(c: Cluster, e: Event) {
    e.EDeliver? && e.p.msg.to in c.nodes && IsFull(e.p.msg.payload) ==>
      !Overreaches(c.nodes[e.p.msg.to], e.p.msg.payload)
  }

  ghost predicate Run(g: Group, cs: seq<Cluster>, es: seq<Event>) {
    && |cs| == |es| + 1
    && cs[0] == Init(g)
    && forall i | 0 <= i < |es| :: Enabled(g, cs[i], es[i]) && cs[i + 1] == Next(g, cs[i], es[i])
  }
}
