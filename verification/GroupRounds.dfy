/** When a round completes, who may go on consuming, and who is dropped for silence, over whole runs. */
module GroupRounds {
  import opened RaftTypes
  import opened Results
  import opened ConsumerGroups
  import Json
  import JsonRoundTrip

  // ---------------------------------------------------------------- completing a round

  /** A join completes the round if and only if nobody else is still to come back. */
  lemma RoundCompletesIff(g: Group, now: int, member: string, subscription: Opaque, timeout: int)
    requires GroupOk(g) && g.state != Completing
    ensures var (h, r) := Joined(g, now, member, subscription, timeout);
            && r.Ok? && h.members.Keys == g.members.Keys + {r.value.member}
            && (h.state == Completing <==>
                  forall k | k in g.members && k != r.value.member :: g.state == Preparing && g.members[k].joined)
            && (h.state != Completing ==> h.state == Preparing && h.generation == g.generation)
  {
    NamedIsReal(g, member);
    var h, id := Named(g, member).0, Named(g, member).1;
    var e := Entered(h, now, id, subscription, timeout);
    assert id in e.members && e.members[id].joined;
    assert forall k | k in g.members && k != id :: k in e.members && e.members[k].joined == (g.state == Preparing && g.members[k].joined);
  }

  /**
    In every run, a heartbeat is answered `Fine` if and only if the group is stable and the beat carries its
    generation; then everyone has rejoined. So a member yet to rejoin is never told that all is well.
   */
  lemma FineIff(gs: seq<Group>, ins: seq<Input>, k: nat, now: int, member: string, generation: int)
    requires Run(gs, ins) && k < |gs|
    ensures var g, r := gs[k], Beaten(gs[k], now, member, generation).1;
            && (r == Ok(Fine) <==> member in g.members && g.state == Stable && generation == g.generation)
            && (r == Ok(Fine) ==> AllJoined(g.members))
            && (member in g.members && !g.members[member].joined ==> r == Ok(RebalanceInProgress))
            && (r == Err(NotFound) <==> member !in g.members)
  {
    RunOk(gs, ins, k);
  }

  // ---------------------------------------------------------------- silence

  /** The group takes the input as a sign of life of `m`: a join, a sync of the current generation or any heartbeat. */
  predicate Hears(g: Group, i: Input, m: string) {
    match i
    case JoinIn(_, member, _, _) => Named(g, member).1 == m
    case SyncIn(_, member, generation, _) => member == m && m in g.members && generation == g.generation
    case BeatIn(_, member, _) => member == m && m in g.members
    case _ => false
  }

  /** Step `j` is the last sign of life of `m` before `k`. */
  ghost predicate LastHeard(gs: seq<Group>, ins: seq<Input>, m: string, j: int, k: int)
    requires |gs| == |ins| + 1 && 0 <= k <= |ins|
  {
    0 <= j < k && Hears(gs[j], ins[j], m) && forall i | j < i < k :: !Hears(gs[i], ins[i], m)
  }

  function TimeOf(i: Input): int {
    if i.LeaveIn? then 0 else i.now
  }

  lemma StepHears(g: Group, i: Input, m: string)
    requires GroupOk(g) && m in Step(g, i).members
    ensures if Hears(g, i, m) then Step(g, i).members[m].lastSeen == TimeOf(i)
            else m in g.members && Step(g, i).members[m].lastSeen == g.members[m].lastSeen
    ensures if i.JoinIn? && Hears(g, i, m) then Step(g, i).members[m].timeout == i.timeout
            else m in g.members && Step(g, i).members[m].timeout == g.members[m].timeout
  {
    if i.SyncIn? && i.member in g.members {
      GrantedSeen(Seen(g, i.member, i.now).members, i.grants);
    }
  }

  lemma {:induction false} GrantedSeen(ms: map<string, Member>, grants: seq<Grant>)
    ensures Granted(ms, grants).Keys == ms.Keys
    ensures forall k | k in ms :: Granted(ms, grants)[k].lastSeen == ms[k].lastSeen && Granted(ms, grants)[k].timeout == ms[k].timeout
  {
    if grants != [] {
      GrantedSeen(ms, grants[..|grants| - 1]);
    }
  }

  /** In every run, what a member's clock shows is the time of its last sign of life. */
  lemma {:induction false} SeenIsLastHeard(gs: seq<Group>, ins: seq<Input>, m: string, k: nat) returns (j: nat)
    requires Run(gs, ins) && k < |gs| && m in gs[k].members
    ensures LastHeard(gs, ins, m, j, k) && gs[k].members[m].lastSeen == TimeOf(ins[j])
  {
    var p := k - 1;
    RunOk(gs, ins, p);
    assert gs[p + 1] == Step(gs[p], ins[p]);
    StepHears(gs[p], ins[p], m);
    if Hears(gs[p], ins[p], m) {
      j := p;
    } else {
      j := SeenIsLastHeard(gs, ins, m, p);
    }
  }

  lemma TickKeeps(g: Group, now: int, m: string)
    requires GroupOk(g) && m in g.members
    ensures m in Ticked(g, now).members <==> now - g.members[m].lastSeen <= g.members[m].timeout
    ensures Ticked(g, now) == g <==> forall k | k in g.members :: now - g.members[k].lastSeen <= g.members[k].timeout
  {
    assert forall k | k in g.members :: k in Alive(g.members, now) <==> !IsExpired(g.members[k], now);
    if Alive(g.members, now) == g.members {
      assert Alive(g.members, now).Keys == g.members.Keys;
    } else {
      SomeoneGone(g.members, now);
      assert Waiting(Alive(g.members, now)).Keys == Alive(g.members, now).Keys;
    }
  }

  lemma SomeoneGone(ms: map<string, Member>, now: int)
    ensures Alive(ms, now) != ms ==> exists k :: k in ms && IsExpired(ms[k], now)
  {
    if forall k | k in ms :: !IsExpired(ms[k], now) {
      assert Alive(ms, now) == ms;
    }
  }

  /**
    In every run, a tick drops a member if and only if its last sign of life is longer ago than its timeout;
    if it drops anyone, those left start a new round, and otherwise nothing changes.
   */
  lemma DroppedIffSilent(gs: seq<Group>, ins: seq<Input>, k: nat, now: int, m: string, j: int)
    requires Run(gs, ins) && k < |ins| && ins[k] == TickIn(now) && m in gs[k].members && LastHeard(gs, ins, m, j, k)
    ensures m !in gs[k + 1].members <==> now - TimeOf(ins[j]) > gs[k].members[m].timeout
    ensures m !in gs[k + 1].members ==> gs[k + 1].state == Preparing || gs[k + 1].state == Empty
    ensures (forall q | q in gs[k].members :: q in gs[k + 1].members) ==> gs[k + 1] == gs[k]
  {
    RunOk(gs, ins, k);
    var i := SeenIsLastHeard(gs, ins, m, k);
    assert i == j;
    TickKeeps(gs[k], now, m);
    assert gs[k + 1] == Ticked(gs[k], now);
    AllKept(gs[k], now);
  }

  lemma AllKept(g: Group, now: int)
    ensures (forall k | k in g.members :: k in Ticked(g, now).members) ==> Ticked(g, now) == g
  {
    SomeoneGone(g.members, now);
    assert Waiting(Alive(g.members, now)).Keys == Alive(g.members, now).Keys;
  }

  // ---------------------------------------------------------------- what everyone is told

  predicate Joins(g: Group, i: Input, m: string) {
    i.JoinIn? && Named(g, i.member).1 == m
  }

  /** Step `j` is the last join of `m` before `k`. */
  ghost predicate LastJoin(gs: seq<Group>, ins: seq<Input>, m: string, j: int, k: int)
    requires |gs| == |ins| + 1 && 0 <= k <= |ins|
  {
    0 <= j < k && Joins(gs[j], ins[j], m) && forall i | j < i < k :: !Joins(gs[i], ins[i], m)
  }

  lemma StepSubscribes(g: Group, i: Input, m: string)
    requires GroupOk(g) && m in Step(g, i).members
    ensures if Joins(g, i, m) then Step(g, i).members[m].subscription == i.subscription
            else m in g.members && Step(g, i).members[m].subscription == g.members[m].subscription
  {
    if i.SyncIn? && i.member in g.members {
      GrantedSubscribed(Seen(g, i.member, i.now).members, i.grants);
    }
  }

  lemma {:induction false} GrantedSubscribed(ms: map<string, Member>, grants: seq<Grant>)
    ensures Granted(ms, grants).Keys == ms.Keys
    ensures forall k | k in ms :: Granted(ms, grants)[k].subscription == ms[k].subscription
  {
    if grants != [] {
      GrantedSubscribed(ms, grants[..|grants| - 1]);
    }
  }

  lemma RunSubscribes(gs: seq<Group>, ins: seq<Input>, m: string, p: nat)
    requires Run(gs, ins) && p < |ins| && m in gs[p + 1].members
    ensures if Joins(gs[p], ins[p], m) then gs[p + 1].members[m].subscription == ins[p].subscription
            else m in gs[p].members && gs[p + 1].members[m].subscription == gs[p].members[m].subscription
  {
    RunOk(gs, ins, p);
    StepSubscribes(gs[p], ins[p], m);
  }

  lemma {:induction false} SubscribedIsLastJoin(gs: seq<Group>, ins: seq<Input>, m: string, k: nat) returns (j: nat)
    requires Run(gs, ins) && k < |gs| && m in gs[k].members
    ensures LastJoin(gs, ins, m, j, k) && gs[k].members[m].subscription == ins[j].subscription
  {
    var p := k - 1;
    RunSubscribes(gs, ins, m, p);
    if Joins(gs[p], ins[p], m) {
      j := p;
    } else {
      j := SubscribedIsLastJoin(gs, ins, m, p);
    }
  }

  /** In every run, whoever is to assign is told of every member what it asked for in its last join, and of nobody else. */
  lemma RosterIsLatest(gs: seq<Group>, ins: seq<Input>, k: nat, m: string, j: int)
    requires Run(gs, ins) && k < |ins| && ins[k].JoinIn? && gs[k + 1].state == Completing
    requires LastJoin(gs, ins, m, j, k + 1)
    ensures var i := ins[k];
            var r := Joined(gs[k], i.now, i.member, i.subscription, i.timeout).1;
            r.Ok? && (r.value.isLeader && m in gs[k + 1].members ==>
                        && r.value.roster.Keys == gs[k + 1].members.Keys
                        && r.value.roster[m] == ins[j].subscription)
  {
    RunOk(gs, ins, k);
    assert gs[k + 1] == Step(gs[k], ins[k]);
    if m in gs[k + 1].members {
      var i := SubscribedIsLastJoin(gs, ins, m, k + 1);
      assert i == j;
    }
  }

  lemma SyncAnswer(g: Group, i: Input)
    requires GroupOk(g) && i.SyncIn?
    ensures var (h, r) := Synced(g, i.now, i.member, i.generation, i.grants);
            && (r.Ok? <==> i.member in g.members && i.generation == g.generation)
            && (r.Ok? ==> r.value.generation == g.generation && (r.value.ready <==> h.state == Stable))
            && (r.Ok? && r.value.ready ==> i.member in h.members && r.value.assignment == h.members[i.member].assignment)
  {
    if i.member in g.members {
      GrantedKeys(Seen(g, i.member, i.now).members, i.grants);
    }
  }

  /** In every run, an assignment handed to a member is its share in the one list its leader gave in this generation. */
  lemma AssignmentIsShare(gs: seq<Group>, ins: seq<Input>, k: nat) returns (j: nat)
    requires Run(gs, ins) && k < |ins| && ins[k].SyncIn? && gs[k + 1].state == Stable
    requires Synced(gs[k], ins[k].now, ins[k].member, ins[k].generation, ins[k].grants).1.Ok?
    ensures j <= k && HandsOut(gs, ins, j) && gs[j].generation == ins[k].generation
    ensures Synced(gs[k], ins[k].now, ins[k].member, ins[k].generation, ins[k].grants).1 ==
            Ok(Syncing(ins[k].generation, true, Share(ins[j].grants, ins[k].member)))
  {
    RunOk(gs, ins, k);
    assert gs[k + 1] == Step(gs[k], ins[k]);
    SyncAnswer(gs[k], ins[k]);
    j := StableCameFromSync(gs, ins, k + 1);
    RunGeneration(gs, ins, k);
  }

  // ---------------------------------------------------------------- names

  function Made(id: string, n: nat): string {
    id + "-" + Json.Decimal(n)
  }

  lemma MadeOnce(id: string, a: nat, b: nat)
    requires Made(id, a) == Made(id, b)
    ensures a == b
  {
    JsonRoundTrip.DecimalSpells(a);
    JsonRoundTrip.DecimalSpells(b);
    var p := id + "-";
    assert Json.Decimal(a) == Made(id, a)[|p|..] && Json.Decimal(b) == Made(id, b)[|p|..];
  }

  /** No member calls itself by a name the group might make up. */
  ghost predicate NamesApart(id: string, ins: seq<Input>) {
    forall k, n: nat | 0 <= k < |ins| && ins[k].JoinIn? :: ins[k].member != Made(id, n)
  }

  /** Every member with a made-up name has one of the first `memberSeq`. */
  ghost predicate NamesOk(g: Group) {
    forall n: nat | Made(g.id, n) in g.members :: n <= g.memberSeq
  }

  lemma StepCounts(g: Group, i: Input)
    ensures Step(g, i).id == g.id
    ensures Step(g, i).memberSeq >= if g.state != Dead && i.JoinIn? && i.member == "" then g.memberSeq + 1 else g.memberSeq
  {
  }

  lemma NewName(g: Group, i: Input, n: nat)
    requires GroupOk(g) && (i.JoinIn? ==> i.member != Made(g.id, n))
    requires Made(g.id, n) in Step(g, i).members && Made(g.id, n) !in g.members
    ensures n <= Step(g, i).memberSeq
  {
    StepSubscribes(g, i, Made(g.id, n));
    StepCounts(g, i);
    MadeOnce(g.id, n, g.memberSeq + 1);
  }

  lemma StepNames(g: Group, i: Input)
    requires GroupOk(g) && NamesOk(g) && (i.JoinIn? ==> forall n: nat :: i.member != Made(g.id, n))
    ensures NamesOk(Step(g, i)) && Step(g, i).id == g.id
  {
    var h := Step(g, i);
    StepCounts(g, i);
    forall n: nat | Made(h.id, n) in h.members ensures n <= h.memberSeq {
      if Made(g.id, n) !in g.members {
        NewName(g, i, n);
      }
    }
  }

  lemma {:induction false} RunNames(gs: seq<Group>, ins: seq<Input>, id: string, k: nat)
    requires Run(gs, ins) && k < |gs| && gs[0].id == id && NamesApart(id, ins)
    ensures gs[k].id == id && NamesOk(gs[k])
  {
    if k > 0 {
      var p := k - 1;
      RunNames(gs, ins, id, p);
      RunOk(gs, ins, p);
      assert gs[p + 1] == Step(gs[p], ins[p]);
      StepNames(gs[p], ins[p]);
    }
  }

  /** In every run in which nobody uses a made-up name, a join without a name takes over no member. */
  lemma MadeUpIsNew(gs: seq<Group>, ins: seq<Input>, k: nat)
    requires Run(gs, ins) && k < |ins| && NamesApart(gs[0].id, ins) && ins[k].JoinIn? && ins[k].member == ""
    ensures Named(gs[k], "").1 !in gs[k].members && Named(gs[k], "").1 in gs[k + 1].members
  {
    RunNames(gs, ins, gs[0].id, k);
    RunOk(gs, ins, k);
    assert Named(gs[k], "").1 == Made(gs[k].id, gs[k].memberSeq + 1);
    assert gs[k + 1] == Step(gs[k], ins[k]);
    LeaderSeesEveryone(gs[k], ins[k].now, "", ins[k].subscription, ins[k].timeout);
  }

  lemma FirstMade()
    ensures Made("g", 1) == "g-1"
  {
    assert Json.Decimal(1) == "1";
  }

  lemma JoinsEmpty(g: Group, name: string)
    requires g == NewGroup("g") && name != ""
    ensures var h := Step(g, JoinIn(0, name, [], 10));
            h.id == "g" && h.memberSeq == 0 && h.state == Completing && h.members.Keys == {name}
  {
    var e := Entered(g, 0, name, [], 10);
    assert Waiting(map[]) == map[];
    assert e.members == map[name := Member([], [], 10, 0, true)];
  }

  lemma JoinsAgain(g: Group, name: string)
    requires g.state == Completing && name in g.members && Named(g, "").1 == name
    ensures Step(g, JoinIn(0, "", [], 10)).members.Keys == g.members.Keys
  {
  }

  lemma TwoSteps(a: Group, i: Input, b: Group, j: Input, c: Group)
    requires a == NewGroup("g") && b == Step(a, i) && c == Step(b, j)
    ensures Run([a, b, c], [i, j])
  {
  }

  /** Otherwise it may: a member that calls itself g-1 is taken over by the first one without a name. */
  lemma NameCanBeTaken() returns (gs: seq<Group>, ins: seq<Input>)
    ensures Run(gs, ins) && |ins| == 2 && ins[0].JoinIn? && ins[0].member == "g-1" && ins[1].JoinIn? && ins[1].member == ""
    ensures Named(gs[1], "").1 == "g-1" && "g-1" in gs[1].members && gs[2].members.Keys == {"g-1"}
  {
    var g0, i0, i1 := NewGroup("g"), JoinIn(0, "g-1", [], 10), JoinIn(0, "", [], 10);
    var g1 := Step(g0, i0);
    var g2 := Step(g1, i1);
    JoinsEmpty(g0, "g-1");
    FirstMade();
    JoinsAgain(g1, "g-1");
    TwoSteps(g0, i0, g1, i1, g2);
    ins, gs := [i0, i1], [g0, g1, g2];
  }
}
