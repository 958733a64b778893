/** Consistent hashing: which node serves a key, and how little that changes when nodes come and go. */
module HashRings {
  import opened Common
  import opened RaftTypes

  type Place = (NodeId, nat) -> nat

  /** Some virtual point of node `n` lies at `h`. */
  ghost predicate Hits(place: Place, vnodes: nat, n: NodeId, h: nat) {
    exists r: nat :: r < vnodes && place(n, r) == h
  }

  /** The ring of a set of nodes: every virtual point, owned by the smallest node it belongs to. */
  ghost predicate IsRing(place: Place, vnodes: nat, nodes: seq<NodeId>, ring: map<nat, NodeId>) {
    && (forall n, h: nat | n in nodes && Hits(place, vnodes, n, h) :: h in ring && ring[h] <= n)
    && (forall h | h in ring :: ring[h] in nodes && Hits(place, vnodes, ring[h], h))
  }

  /** The first point at or after `p`, or the first of all when there is none. */
  ghost predicate IsNext(ring: map<nat, NodeId>, p: nat, h: nat) {
    && h in ring
    && (if h >= p then forall k | k in ring && k >= p :: h <= k
        else forall k | k in ring :: k < p && h <= k)
  }

  /** The node a key at point `p` is served by. */
  ghost predicate Serves(ring: map<nat, NodeId>, p: nat, n: NodeId) {
    exists h :: IsNext(ring, p, h) && ring[h] == n
  }

  lemma OneNext(ring: map<nat, NodeId>, p: nat, h: nat, k: nat)
    requires IsNext(ring, p, h) && IsNext(ring, p, k)
    ensures h == k
  {
  }

  // ---------------------------------------------------------------- minimal disruption

  ghost predicate SameButFor(nodes: seq<NodeId>, more: seq<NodeId>, x: NodeId) {
    forall n :: n in more <==> n in nodes || n == x
  }

  lemma OldPoint(place: Place, vnodes: nat, nodes: seq<NodeId>, more: seq<NodeId>, x: NodeId,
                 ring: map<nat, NodeId>, ring': map<nat, NodeId>, h: nat)
    requires IsRing(place, vnodes, nodes, ring) && IsRing(place, vnodes, more, ring') && SameButFor(nodes, more, x)
    requires h in ring
    ensures h in ring' && (ring'[h] == ring[h] || ring'[h] == x)
  {
    assert ring[h] in nodes && Hits(place, vnodes, ring[h], h);
    assert h in ring' && ring'[h] <= ring[h];
    assert ring'[h] in more && Hits(place, vnodes, ring'[h], h);
  }

  /** With one more node every key stays where it was or goes to the new node. */
  lemma AddingMovesOnlyToNew(place: Place, vnodes: nat, nodes: seq<NodeId>, more: seq<NodeId>, x: NodeId,
                             ring: map<nat, NodeId>, ring': map<nat, NodeId>, p: nat, h: nat, h': nat)
    requires IsRing(place, vnodes, nodes, ring) && IsRing(place, vnodes, more, ring') && SameButFor(nodes, more, x)
    requires IsNext(ring, p, h) && IsNext(ring', p, h')
    ensures ring'[h'] == ring[h] || ring'[h'] == x
  {
    forall k | k in ring ensures k in ring' {
      OldPoint(place, vnodes, nodes, more, x, ring, ring', k);
    }
    if h' in ring {
      OneNext(ring, p, h, h');
      OldPoint(place, vnodes, nodes, more, x, ring, ring', h);
    } else {
      assert ring'[h'] in more && Hits(place, vnodes, ring'[h'], h');
      assert ring'[h'] !in nodes;
    }
  }

  /** With one node less every key that was not on it stays where it was. */
  lemma RemovingMovesOnlyItsOwn(place: Place, vnodes: nat, nodes: seq<NodeId>, fewer: seq<NodeId>, x: NodeId,
                                ring: map<nat, NodeId>, ring': map<nat, NodeId>, p: nat, h: nat, h': nat)
    requires IsRing(place, vnodes, nodes, ring) && IsRing(place, vnodes, fewer, ring') && SameButFor(fewer, nodes, x)
    requires IsNext(ring, p, h) && IsNext(ring', p, h') && ring[h] != x
    ensures ring'[h'] == ring[h]
  {
    AddingMovesOnlyToNew(place, vnodes, fewer, nodes, x, ring', ring, p, h', h);
  }

  // ---------------------------------------------------------------- the balancer

  predicate Ascending(s: seq<NodeId>) {
    forall i, j | 0 <= i < j < |s| :: s[i] < s[j]
  }

  lemma StaysPut(s: seq<NodeId>, n: NodeId, k: nat)
    requires k < |s| && s[k] == n
    ensures SameButFor(s, s, n)
  {
  }

  /** In its place a new node keeps the sequence ascending and adds nothing else. */
  lemma Placed(s: seq<NodeId>, k: nat, n: NodeId)
    requires Ascending(s) && k <= |s| && (k < |s| ==> s[k] > n) && forall i | 0 <= i < k :: s[i] < n
    ensures Ascending(s[..k] + [n] + s[k..]) && SameButFor(s, s[..k] + [n] + s[k..], n)
  {
    var t := s[..k] + [n] + s[k..];
    assert t[k] == n;
    forall i | 0 <= i < |s| ensures s[i] in t {
      assert s[i] == t[if i < k then i else i + 1];
    }
  }

  class LoadBalancer {
    const place: Place
    const hash: string -> nat
    const vnodes: nat
    var nodes: seq<NodeId>
    var ring: map<nat, NodeId>

    ghost predicate Valid()
      reads this
    {
      vnodes >= 1 && Ascending(nodes) && IsRing(place, vnodes, nodes, ring)
    }

    constructor (pl: Place, ha: string -> nat, v: nat)
      ensures Valid() && nodes == [] && place == pl && hash == ha
    {
      place, hash, vnodes, nodes, ring := pl, ha, if v < 1 then 1 else v, [], map[];
    }

    /** The points of every node in turn; a point already taken stays with its owner. */
    method RebuildRing()
      requires vnodes >= 1 && Ascending(nodes)
      modifies this`ring
      ensures Valid()
    {
      var r: map<nat, NodeId> := map[];
      for i := 0 to |nodes|
        invariant IsRing(place, vnodes, nodes[..i], r)
      {
        r := AddPoints(r, nodes[..i], nodes[i]);
        assert nodes[..i + 1] == nodes[..i] + [nodes[i]];
      }
      assert nodes[..|nodes|] == nodes;
      ring := r;
    }

    method AddPoints(r: map<nat, NodeId>, done: seq<NodeId>, n: NodeId) returns (r': map<nat, NodeId>)
      requires IsRing(place, vnodes, done, r) && forall m | m in done :: m < n
      ensures IsRing(place, vnodes, done + [n], r')
    {
      r' := r;
      for k := 0 to vnodes
        invariant forall h | h in r :: h in r' && r'[h] == r[h]
        invariant forall j: nat | j < k :: place(n, j) in r'
        invariant forall h | h in r' && h !in r :: r'[h] == n && Hits(place, vnodes, n, h)
      {
        var h := place(n, k);
        if h !in r' {
          r' := r'[h := n];
        }
      }
      RingGrows(place, vnodes, done, n, r, r');
    }

    method AddNode(n: NodeId)
      requires Valid()
      modifies this
      ensures Valid() && SameButFor(old(nodes), nodes, n)
      ensures forall p: nat, h, h' | IsNext(old(ring), p, h) && IsNext(ring, p, h') ::
                ring[h'] == old(ring)[h] || ring[h'] == n
    {
      var k := 0;
      while k < |nodes| && nodes[k] < n
        invariant k <= |nodes| && forall i | 0 <= i < k :: nodes[i] < n
      {
        k := k + 1;
      }
      if k < |nodes| && nodes[k] == n {
        StaysPut(nodes, n, k);
      } else {
        Placed(nodes, k, n);
        nodes := nodes[..k] + [n] + nodes[k..];
        RebuildRing();
      }
      forall p: nat, h, h' | IsNext(old(ring), p, h) && IsNext(ring, p, h')
        ensures ring[h'] == old(ring)[h] || ring[h'] == n
      {
        AddingMovesOnlyToNew(place, vnodes, old(nodes), nodes, n, old(ring), ring, p, h, h');
      }
    }

    method RemoveNode(n: NodeId)
      requires Valid()
      modifies this
      ensures Valid() && n !in nodes && (n in old(nodes) ==> SameButFor(nodes, old(nodes), n))
      ensures n !in old(nodes) ==> nodes == old(nodes) && ring == old(ring)
      ensures forall p: nat, h, h' | IsNext(old(ring), p, h) && IsNext(ring, p, h') && old(ring)[h] != n ::
                ring[h'] == old(ring)[h]
    {
      var k := 0;
      while k < |nodes| && nodes[k] != n
        invariant k <= |nodes| && forall i | 0 <= i < k :: nodes[i] != n
      {
        k := k + 1;
      }
      if k == |nodes| {
        forall p: nat, h, h' | IsNext(ring, p, h) && IsNext(ring, p, h') ensures h == h' {
          OneNext(ring, p, h, h');
        }
        return;
      }
      assert nodes == nodes[..k] + [n] + nodes[k + 1..];
      nodes := nodes[..k] + nodes[k + 1..];
      RebuildRing();
      forall p: nat, h, h' | IsNext(old(ring), p, h) && IsNext(ring, p, h') && old(ring)[h] != n
        ensures ring[h'] == old(ring)[h]
      {
        RemovingMovesOnlyItsOwn(place, vnodes, old(nodes), nodes, n, old(ring), ring, p, h, h');
      }
    }

    method Choose(key: string) returns (r: Option<NodeId>)
      requires Valid()
      ensures r == None <==> nodes == []
      ensures r.Some? ==> r.value in nodes && Serves(ring, hash(key), r.value)
    {
      if nodes == [] {
        return None;
      }
      assert Hits(place, vnodes, nodes[0], place(nodes[0], 0));
      var h := Successor(ring, hash(key));
      r := Some(ring[h]);
    }
  }

  lemma RingGrows(place: Place, vnodes: nat, done: seq<NodeId>, n: NodeId, r: map<nat, NodeId>, r': map<nat, NodeId>)
    requires IsRing(place, vnodes, done, r) && forall m | m in done :: m < n
    requires forall h | h in r :: h in r' && r'[h] == r[h]
    requires forall j: nat | j < vnodes :: place(n, j) in r'
    requires forall h | h in r' && h !in r :: r'[h] == n && Hits(place, vnodes, n, h)
    ensures IsRing(place, vnodes, done + [n], r')
  {
    forall m, h: nat | m in done + [n] && Hits(place, vnodes, m, h) ensures h in r' && r'[h] <= m {
      if m !in done {
        var j: nat :| j < vnodes && place(m, j) == h;
      }
    }
  }

  /** The first point at or after `p`, wrapping around. */
  method Successor(ring: map<nat, NodeId>, p: nat) returns (h: nat)
    requires ring != map[]
    ensures IsNext(ring, p, h)
  {
    assert ring.Keys != {};
    var rest := ring.Keys;
    h := Pick(rest);
    rest := rest - {h};
    while rest != {}
      invariant rest <= ring.Keys && h in ring && h !in rest
      invariant if h >= p then forall k | k in ring && k !in rest && k >= p :: h <= k
                else forall k | k in ring && k !in rest :: k < p && h <= k
      decreases |rest|
    {
      var k := Pick(rest);
      if (k >= p && (h < p || k < h)) || (k < p && h < p && k < h) {
        h := k;
      }
      rest := rest - {k};
    }
  }
}
