/** A consumer group: membership, rounds of rebalancing numbered by generation, and assignments. */
module ConsumerGroups {
  import opened Common
  import opened RaftTypes
  import opened Results
  import opened Bytes
  import Json

  datatype GroupState = Empty | Preparing | Completing | Stable | Dead

  type Opaque = seq<Byte>

  datatype Member = Member(subscription: Opaque, assignment: Opaque, timeout: int, lastSeen: int, joined: bool)

  datatype Group = Group(
    id: string, state: GroupState, generation: int, leader: string, members: map<string, Member>, memberSeq: nat)

  /** `roster` is what the leader assigns from: everyone's subscription, once the round is complete. */
  datatype Joining = Joining(
    member: string, generation: int, leader: string, isLeader: bool, roster: map<string, Opaque>)

  datatype Syncing = Syncing(generation: int, ready: bool, assignment: Opaque)

  datatype Beat = Fine | RebalanceInProgress

  datatype Grant = Grant(member: string, assignment: Opaque)

  function NewGroup(id: string): Group {
    Group(id, Empty, 0, "", map[], 0)
  }

  // ---------------------------------------------------------------- rounds

  function Waiting(ms: map<string, Member>): map<string, Member> {
    map k | k in ms :: ms[k].(joined := false)
  }

  /** A new round: everyone has to join again, the first to do so leads. */
  function Rebalanced(g: Group): Group {
    g.(state := Preparing, leader := "", members := Waiting(g.members))
  }

  predicate AllJoined(ms: map<string, Member>) {
    forall k | k in ms :: ms[k].joined
  }

  function Unassigned(m: Member): Member {
    m.(assignment := [])
  }

  function Cleared(ms: map<string, Member>): map<string, Member> {
    map k | k in ms :: Unassigned(ms[k])
  }

  /** The round is complete once everyone is back: a new generation without assignments. */
  function Completed(g: Group): Group {
    if g.state != Preparing || g.members == map[] || !AllJoined(g.members) then g
    else g.(state := Completing, generation := g.generation + 1, members := Cleared(g.members))
  }

  function AfterLoss(g: Group): Group {
    if g.members == map[] then g.(state := Empty, leader := "") else Rebalanced(g)
  }

  // ---------------------------------------------------------------- inputs

  function Named(g: Group, member: string): (Group, string) {
    if member == "" then (g.(memberSeq := g.memberSeq + 1), g.id + "-" + Json.Decimal(g.memberSeq + 1)) else (g, member)
  }

  function Entered(g: Group, now: int, id: string, subscription: Opaque, timeout: int): Group {
    var g := if g.state == Stable || g.state == Empty then Rebalanced(g) else g;
    var had := if id in g.members then g.members[id].assignment else [];
    g.(members := g.members[id := Member(subscription, had, timeout, now, true)],
       leader := if g.leader == "" then id else g.leader)
  }

  function RosterFor(g: Group, id: string): map<string, Opaque> {
    if id == g.leader && g.state == Completing then map k | k in g.members :: g.members[k].subscription else map[]
  }

  function Joined(g: Group, now: int, member: string, subscription: Opaque, timeout: int): (Group, Result<Joining>) {
    if g.state == Dead then (g, Err(Unsupported))
    else
      var (h, id) := Named(g, member);
      var j := Completed(Entered(h, now, id, subscription, timeout));
      (j, Ok(Joining(id, j.generation, j.leader, id == j.leader, RosterFor(j, id))))
  }

  function Granted(ms: map<string, Member>, grants: seq<Grant>): map<string, Member> {
    if grants == [] then ms
    else
      var n := |grants| - 1;
      var ms' := Granted(ms, grants[..n]);
      if grants[n].member in ms' then ms'[grants[n].member := ms'[grants[n].member].(assignment := grants[n].assignment)]
      else ms'
  }

  function Seen(g: Group, member: string, now: int): Group
    requires member in g.members
  {
    g.(members := g.members[member := g.members[member].(lastSeen := now)])
  }

  lemma {:induction false} GrantedKeys(ms: map<string, Member>, grants: seq<Grant>)
    ensures Granted(ms, grants).Keys == ms.Keys
  {
    if grants != [] {
      GrantedKeys(ms, grants[..|grants| - 1]);
    }
  }

  function Synced(g: Group, now: int, member: string, generation: int, grants: seq<Grant>): (Group, Result<Syncing>) {
    if g.state == Dead then (g, Err(Unsupported))
    else if member !in g.members then (g, Err(NotFound))
    else if generation != g.generation then (g, Err(InvalidArgument))
    else
      var g := Seen(g, member, now);
      if g.state == Stable then (g, Ok(Syncing(g.generation, true, g.members[member].assignment)))
      else if g.state == Completing && member == g.leader then
        GrantedKeys(g.members, grants);
        var h := g.(members := Granted(g.members, grants), state := Stable);
        (h, Ok(Syncing(h.generation, true, h.members[member].assignment)))
      else (g, Ok(Syncing(g.generation, false, [])))
  }

  function Beaten(g: Group, now: int, member: string, generation: int): (Group, Result<Beat>) {
    if g.state == Dead then (g, Err(Unsupported))
    else if member !in g.members then (g, Err(NotFound))
    else
      var g := Seen(g, member, now);
      if g.state == Preparing || g.state == Completing then (g, Ok(RebalanceInProgress))
      else if generation != g.generation then (g, Err(InvalidArgument))
      else (g, Ok(Fine))
  }

  function Left(g: Group, member: string): (Group, Result<()>) {
    if g.state == Dead then (g, Err(Unsupported))
    else if member !in g.members then (g, Err(NotFound))
    else (AfterLoss(g.(members := g.members - {member})), Ok(()))
  }

  predicate IsExpired(m: Member, now: int) {
    now - m.lastSeen > m.timeout
  }

  function Alive(ms: map<string, Member>, now: int): map<string, Member> {
    map k | k in ms && !IsExpired(ms[k], now) :: ms[k]
  }

  function Ticked(g: Group, now: int): Group {
    if g.state == Dead || Alive(g.members, now) == g.members then g
    else AfterLoss(g.(members := Alive(g.members, now)))
  }

  // ---------------------------------------------------------------- the object

  class ConsumerGroup {
    const id: string
    var state: GroupState
    var generation: int
    var leader: string
    var members: map<string, Member>
    var memberSeq: nat

    function Value(): Group
      reads this
    {
      Group(id, state, generation, leader, members, memberSeq)
    }

    constructor (name: string)
      ensures Value() == NewGroup(name)
    {
      id, state, generation, leader, members, memberSeq := name, Empty, 0, "", map[], 0;
    }

    method BeginRebalance()
      modifies this`state, this`leader, this`members
      ensures Value() == Rebalanced(old(Value()))
    {
      state := Preparing;
      leader := "";
      members := ForEach(members, (m: Member) => m.(joined := false));
    }

    method CompleteIfReady()
      modifies this`state, this`generation, this`members
      ensures Value() == Completed(old(Value()))
    {
      if state != Preparing || members == map[] {
        return;
      }
      var rest := members.Keys;
      while rest != {}
        invariant Value() == old(Value()) && rest <= members.Keys
        invariant forall k | k in members && k !in rest :: members[k].joined
        decreases |rest|
      {
        var k := Pick(rest);
        if !members[k].joined {
          return;
        }
        rest := rest - {k};
      }
      state := Completing;
      generation := generation + 1;
      members := ForEach(members, Unassigned);
    }

    method Join(now: int, member: string, subscription: Opaque, timeout: int) returns (r: Result<Joining>)
      modifies this
      ensures (Value(), r) == Joined(old(Value()), now, member, subscription, timeout)
    {
      if state == Dead {
        return Err(Unsupported);
      }
      var name := member;
      if member == "" {
        memberSeq := memberSeq + 1;
        name := id + "-" + Json.Decimal(memberSeq);
      }
      Enter(now, name, subscription, timeout);
      CompleteIfReady();
      var roster: map<string, Opaque> := map[];
      if name == leader && state == Completing {
        roster := map k | k in members :: members[k].subscription;
      }
      r := Ok(Joining(name, generation, leader, name == leader, roster));
    }

    method Enter(now: int, name: string, subscription: Opaque, timeout: int)
      modifies this`state, this`leader, this`members
      ensures Value() == Entered(old(Value()), now, name, subscription, timeout)
    {
      if state == Stable || state == Empty {
        BeginRebalance();
      }
      var had := if name in members then members[name].assignment else [];
      members := members[name := Member(subscription, had, timeout, now, true)];
      if leader == "" {
        leader := name;
      }
    }

    method Sync(now: int, member: string, gen: int, grants: seq<Grant>) returns (r: Result<Syncing>)
      modifies this`members, this`state
      ensures (Value(), r) == Synced(old(Value()), now, member, gen, grants)
    {
      if state == Dead {
        return Err(Unsupported);
      }
      if member !in members {
        return Err(NotFound);
      }
      if gen != generation {
        return Err(InvalidArgument);
      }
      members := members[member := members[member].(lastSeen := now)];
      if state == Stable {
        return Ok(Syncing(generation, true, members[member].assignment));
      }
      if state != Completing {
        return Ok(Syncing(generation, false, []));
      }
      if member == leader {
        HandOut(grants);
        state := Stable;
        return Ok(Syncing(generation, true, members[member].assignment));
      }
      r := Ok(Syncing(generation, false, []));
    }

    /** The leader's shares, each to the member it names, if there is such a member. */
    method HandOut(grants: seq<Grant>)
      modifies this`members
      ensures members == Granted(old(members), grants) && members.Keys == old(members).Keys
    {
      for i := 0 to |grants|
        invariant members == Granted(old(members), grants[..i])
      {
        assert grants[..i + 1][..i] == grants[..i];
        var target := grants[i].member;
        if target in members {
          members := members[target := members[target].(assignment := grants[i].assignment)];
        }
      }
      assert grants[..|grants|] == grants;
      GrantedKeys(old(members), grants);
    }

    method Heartbeat(now: int, member: string, gen: int) returns (r: Result<Beat>)
      modifies this`members
      ensures (Value(), r) == Beaten(old(Value()), now, member, gen)
    {
      if state == Dead {
        return Err(Unsupported);
      }
      if member !in members {
        return Err(NotFound);
      }
      members := members[member := members[member].(lastSeen := now)];
      if state == Preparing || state == Completing {
        return Ok(RebalanceInProgress);
      }
      if gen != generation {
        return Err(InvalidArgument);
      }
      r := Ok(Fine);
    }

    method Settle()
      modifies this`state, this`leader, this`members
      ensures Value() == AfterLoss(old(Value()))
    {
      if members == map[] {
        state := Empty;
        leader := "";
      } else {
        BeginRebalance();
      }
    }

    method Leave(member: string) returns (r: Result<()>)
      modifies this`state, this`leader, this`members
      ensures (Value(), r) == Left(old(Value()), member)
    {
      if state == Dead {
        return Err(Unsupported);
      }
      if member !in members {
        return Err(NotFound);
      }
      members := members - {member};
      Settle();
      r := Ok(());
    }

    method Tick(now: int)
      modifies this`state, this`leader, this`members
      ensures Value() == Ticked(old(Value()), now)
    {
      if state == Dead {
        return;
      }
      var kept := Survivors(members, now);
      var removed := kept != members;
      members := kept;
      if removed {
        Settle();
      }
    }
  }

  /** Every value replaced, one key at a time. */
  method ForEach<V>(m: map<string, V>, f: V -> V) returns (r: map<string, V>)
    ensures r == map k | k in m :: f(m[k])
  {
    r := m;
    var rest := m.Keys;
    while rest != {}
      invariant rest <= m.Keys && r.Keys == m.Keys
      invariant forall k | k in m :: r[k] == if k in rest then m[k] else f(m[k])
      decreases |rest|
    {
      var k := Pick(rest);
      r := r[k := f(r[k])];
      rest := rest - {k};
    }
  }

  method Survivors(ms: map<string, Member>, now: int) returns (r: map<string, Member>)
    ensures r == Alive(ms, now)
  {
    r := ms;
    var rest := ms.Keys;
    while rest != {}
      invariant rest <= ms.Keys && r.Keys <= ms.Keys
      invariant forall k | k in ms :: k in r <==> k in rest || !IsExpired(ms[k], now)
      invariant forall k | k in r :: r[k] == ms[k]
      decreases |rest|
    {
      var k := Pick(rest);
      if IsExpired(r[k], now) {
        r := r - {k};
      }
      rest := rest - {k};
    }
  }

  // ---------------------------------------------------------------- every run

  datatype Input =
    | JoinIn(now: int, member: string, subscription: Opaque, timeout: int)
    | SyncIn(now: int, member: string, generation: int, grants: seq<Grant>)
    | BeatIn(now: int, member: string, generation: int)
    | LeaveIn(member: string)
    | TickIn(now: int)

  function Step(g: Group, i: Input): Group {
    match i
    case JoinIn(now, m, sub, timeout) => Joined(g, now, m, sub, timeout).0
    case SyncIn(now, m, gen, grants) => Synced(g, now, m, gen, grants).0
    case BeatIn(now, m, gen) => Beaten(g, now, m, gen).0
    case LeaveIn(m) => Left(g, m).0
    case TickIn(now) => Ticked(g, now)
  }

  ghost predicate GroupOk(g: Group) {
    && g.state != Dead
    && (g.state == Empty <==> g.members == map[])
    && "" !in g.members
    && (g.state == Completing || g.state == Stable ==> g.leader in g.members && AllJoined(g.members))
    && (g.state == Preparing && g.leader != "" ==> g.leader in g.members)
    && (g.state == Completing ==> forall k | k in g.members :: g.members[k].assignment == [])
  }

  lemma NamedIsReal(g: Group, member: string)
    ensures Named(g, member).1 != ""
  {
  }

  lemma JoinOk(g: Group, now: int, member: string, subscription: Opaque, timeout: int)
    requires GroupOk(g)
    ensures GroupOk(Joined(g, now, member, subscription, timeout).0)
  {
    NamedIsReal(g, member);
    var h, id := Named(g, member).0, Named(g, member).1;
    var e := Entered(h, now, id, subscription, timeout);
    assert id in e.members;
  }

  lemma LossOk(g: Group)
    requires "" !in g.members && g.state != Dead
    ensures GroupOk(AfterLoss(g))
  {
    if g.members != map[] {
      assert Waiting(g.members).Keys == g.members.Keys;
    }
  }

  lemma SyncOk(g: Group, now: int, member: string, generation: int, grants: seq<Grant>)
    requires GroupOk(g)
    ensures GroupOk(Synced(g, now, member, generation, grants).0)
  {
    if member in g.members {
      GrantedJoined(Seen(g, member, now).members, grants);
    }
  }

  lemma {:induction false} GrantedJoined(ms: map<string, Member>, grants: seq<Grant>)
    ensures Granted(ms, grants).Keys == ms.Keys && forall k | k in ms :: Granted(ms, grants)[k].joined == ms[k].joined
  {
    if grants != [] {
      GrantedJoined(ms, grants[..|grants| - 1]);
    }
  }

  lemma StepOk(g: Group, i: Input)
    requires GroupOk(g)
    ensures GroupOk(Step(g, i))
  {
    match i
    case JoinIn(now, m, sub, timeout) => JoinOk(g, now, m, sub, timeout);
    case SyncIn(now, m, gen, grants) => SyncOk(g, now, m, gen, grants);
    case BeatIn(now, m, gen) =>
    case LeaveIn(m) =>
      if m in g.members {
        LossOk(g.(members := g.members - {m}));
      }
    case TickIn(now) => LossOk(g.(members := Alive(g.members, now)));
  }

  /** The generation rises by one exactly when a round completes. */
  lemma GenerationCountsRounds(g: Group, i: Input)
    requires GroupOk(g)
    ensures Step(g, i).generation ==
            g.generation + (if g.state != Completing && Step(g, i).state == Completing then 1 else 0)
  {
  }

  ghost predicate Run(gs: seq<Group>, ins: seq<Input>) {
    && |gs| == |ins| + 1
    && (exists id :: gs[0] == NewGroup(id))
    && forall k | 0 <= k < |ins| :: gs[k + 1] == Step(gs[k], ins[k])
  }

  /** In every run: no members exactly when empty, and a leader among members who all rejoined once a round is done. */
  lemma {:induction false} RunOk(gs: seq<Group>, ins: seq<Input>, k: nat)
    requires Run(gs, ins) && k < |gs|
    ensures GroupOk(gs[k])
  {
    if k > 0 {
      RunOk(gs, ins, k - 1);
      assert gs[(k - 1) + 1] == Step(gs[k - 1], ins[k - 1]);
      StepOk(gs[k - 1], ins[k - 1]);
    }
  }

  /** What a list of grants gives a member: its last entry there, or nothing. */
  function Share(grants: seq<Grant>, member: string): Opaque {
    if grants == [] then []
    else if grants[|grants| - 1].member == member then grants[|grants| - 1].assignment
    else Share(grants[..|grants| - 1], member)
  }

  lemma {:induction false} GrantedShares(ms: map<string, Member>, grants: seq<Grant>, k: string)
    requires k in ms && ms[k].assignment == []
    ensures k in Granted(ms, grants) && Granted(ms, grants)[k].assignment == Share(grants, k)
  {
    GrantedKeys(ms, grants);
    if grants != [] {
      GrantedShares(ms, grants[..|grants| - 1], k);
    }
  }

  /** Step `j` is the leader handing out the assignments. */
  ghost predicate HandsOut(gs: seq<Group>, ins: seq<Input>, j: nat) {
    && j < |ins| && |gs| == |ins| + 1
    && gs[j].state == Completing && gs[j + 1].state == Stable
    && ins[j].SyncIn? && ins[j].member == gs[j].leader && ins[j].generation == gs[j].generation
  }

  /** Everyone holds what that step gave them. */
  ghost predicate HoldsShares(g: Group, h: Group, i: Input) {
    && i.SyncIn? && h.generation == g.generation && h.leader == g.leader
    && forall k | k in h.members :: h.members[k].assignment == Share(i.grants, k)
  }

  lemma BecomesStable(g: Group, i: Input)
    requires GroupOk(g) && g.state != Stable && Step(g, i).state == Stable
    ensures g.state == Completing && i.SyncIn? && i.member == g.leader && i.generation == g.generation
    ensures HoldsShares(g, Step(g, i), i)
  {
    if i.SyncIn? && i.member in g.members {
      var ms := Seen(g, i.member, i.now).members;
      GrantedKeys(ms, i.grants);
      forall k | k in ms ensures ms[k].assignment == [] ==> Granted(ms, i.grants)[k].assignment == Share(i.grants, k) {
        if ms[k].assignment == [] {
          GrantedShares(ms, i.grants, k);
        }
      }
    }
  }

  lemma StaysStable(g: Group, h: Group, i: Input, source: Input)
    requires GroupOk(h) && h.state == Stable && Step(h, i).state == Stable && HoldsShares(g, h, source)
    ensures HoldsShares(g, Step(h, i), source)
  {
  }

  /** Whoever is told to assign is told of everyone who joined the round, itself included, and nobody else is. */
  lemma LeaderSeesEveryone(g: Group, now: int, member: string, subscription: Opaque, timeout: int)
    requires GroupOk(g)
    ensures var (h, r) := Joined(g, now, member, subscription, timeout);
            && r.Ok? && r.value.member in h.members && h.members[r.value.member].subscription == subscription
            && (r.value.isLeader && h.state == Completing ==>
                  && r.value.roster.Keys == h.members.Keys && AllJoined(h.members)
                  && r.value.roster[r.value.member] == subscription)
            && (!r.value.isLeader || h.state != Completing ==> r.value.roster == map[])
  {
    JoinOk(g, now, member, subscription, timeout);
  }

  /** When the group is stable, every assignment came from its leader's sync in the current generation. */
  lemma {:induction false} StableCameFromSync(gs: seq<Group>, ins: seq<Input>, k: nat) returns (j: nat)
    requires Run(gs, ins) && k < |gs| && gs[k].state == Stable
    ensures j < k && HandsOut(gs, ins, j) && HoldsShares(gs[j], gs[k], ins[j])
  {
    var p := k - 1;
    RunOk(gs, ins, p);
    assert gs[p + 1] == Step(gs[p], ins[p]);
    if gs[p].state == Stable {
      j := StableCameFromSync(gs, ins, p);
      StaysStable(gs[j], gs[p], ins[p], ins[j]);
    } else {
      j := p;
      BecomesStable(gs[p], ins[p]);
    }
  }

  lemma RunGeneration(gs: seq<Group>, ins: seq<Input>, k: nat)
    requires Run(gs, ins) && k < |ins|
    ensures gs[k + 1].generation ==
            gs[k].generation + (if gs[k].state != Completing && gs[k + 1].state == Completing then 1 else 0)
  {
    RunOk(gs, ins, k);
    GenerationCountsRounds(gs[k], ins[k]);
  }

  lemma {:induction false} NextRoundIsLater(gs: seq<Group>, ins: seq<Input>, a: nat, b: nat)
    requires Run(gs, ins) && a <= b < |gs| && gs[a].state != Completing
    ensures gs[a].generation <= gs[b].generation
    ensures gs[b].state == Completing ==> gs[a].generation < gs[b].generation
    decreases b
  {
    if a < b {
      var c := b - 1;
      NextRoundIsLater(gs, ins, a, c);
      RunGeneration(gs, ins, c);
    }
  }

  /** There is one such sync per generation. */
  lemma OneSyncPerGeneration(gs: seq<Group>, ins: seq<Input>, i: nat, j: nat)
    requires Run(gs, ins) && HandsOut(gs, ins, i) && HandsOut(gs, ins, j) && i < j
    ensures gs[i].generation < gs[j].generation
  {
    RunGeneration(gs, ins, i);
    NextRoundIsLater(gs, ins, i + 1, j);
  }
}
