/**
 Where an actor is placed (cluster/placement.go, cluster/node.go, cluster/migration.go).

 The checksum is an input: any function from strings to 32-bit words. `Nearest` says what
 consistent hashing means, without a ring, a sort or a search: of all the virtual nodes,
 one at the smallest clockwise distance from the key.
 */
module Placement {
  import opened Prelude
  import opened Decimal

  const WORDS: nat := 0x1_0000_0000

  type Word = x: int | 0 <= x < 0x1_0000_0000

  type Checksum = string -> Word

  datatype Node = Node(id: string, addr: string, kind: string)

  /** What Place returns when no node can host the actor. */
  const NOWHERE: Node := Node("", "", "")

  type Mapping = map<string, seq<string>>

  datatype Ring = Ring(sum: Checksum, virtualNodes: nat)

  /** NewConsistentHashPlacement: never without virtual nodes. */
  function NewRing(sum: Checksum, virtualNodes: int): (r: Ring)
    ensures r.virtualNodes > 0 && (virtualNodes > 0 ==> r.virtualNodes == virtualNodes)
  {
    Ring(sum, if virtualNodes <= 0 then 128 else virtualNodes)
  }

  // ------------------------------------------------------------ consistent hashing

  /** The clockwise distance from a key to a point, modulo 2^32. */
  function Distance(key: Word, point: Word): Word {
    (point - key) % WORDS
  }

  /** Going that far clockwise, round the ring if need be, leads from the key to the point,
      and no shorter way does. */
  lemma ClockwiseIsShortest(key: Word, point: Word, d: nat)
    ensures (key + Distance(key, point)) % WORDS == point
    ensures (key + d) % WORDS == point ==> Distance(key, point) <= d
  {
    assert Distance(key, point) == if point >= key then point - key else point - key + WORDS;
  }

  function Point(r: Ring, n: Node, i: nat): Word {
    r.sum(Key(n.id, i))
  }

  /** No virtual node is nearer to the key than this one. */
  ghost predicate NearestAt(r: Ring, key: Word, nodes: set<Node>, n: Node, i: nat) {
    && n in nodes && i < r.virtualNodes
    && forall m, j: nat | m in nodes && j < r.virtualNodes ::
         Distance(key, Point(r, n, i)) <= Distance(key, Point(r, m, j))
  }

  ghost predicate Nearest(r: Ring, key: Word, nodes: set<Node>, n: Node) {
    exists i: nat :: NearestAt(r, key, nodes, n, i)
  }

  /** No two different nodes have virtual nodes at the same point. */
  ghost predicate Clear(r: Ring, nodes: set<Node>) {
    forall a, b, i: nat, j: nat | a in nodes && b in nodes && i < r.virtualNodes && j < r.virtualNodes
      && Point(r, a, i) == Point(r, b, j) :: a == b
  }

  lemma DistanceInjective(key: Word, p: Word, q: Word)
    requires Distance(key, p) == Distance(key, q)
    ensures p == q
  {
    assert Distance(key, p) == if p >= key then p - key else p - key + WORDS;
    assert Distance(key, q) == if q >= key then q - key else q - key + WORDS;
  }

  /** With no collision between different nodes there is one nearest node. */
  lemma NearestUnique(r: Ring, key: Word, nodes: set<Node>, a: Node, b: Node)
    requires Clear(r, nodes) && Nearest(r, key, nodes, a) && Nearest(r, key, nodes, b)
    ensures a == b
  {
    var i: nat :| NearestAt(r, key, nodes, a, i);
    var j: nat :| NearestAt(r, key, nodes, b, j);
    DistanceInjective(key, Point(r, a, i), Point(r, b, j));
  }

  // ------------------------------------------------------------ who may host

  /** HasGroup: a node without a kind hosts everything. */
  predicate CanHost(m: Mapping, n: Node, actorType: string) {
    n.kind == "" || (n.kind in m && actorType in m[n.kind])
  }

  function Filter(m: Mapping, members: seq<Node>, actorType: string): seq<Node> {
    if members == [] then [] else
    var rest := Filter(m, members[..|members| - 1], actorType);
    var n := members[|members| - 1];
    if CanHost(m, n, actorType) then rest + [n] else rest
  }

  lemma {:induction false} FilterHas(m: Mapping, members: seq<Node>, actorType: string, n: Node)
    ensures n in Filter(m, members, actorType) <==> n in members && CanHost(m, n, actorType)
    decreases |members|
  {
    if members != [] {
      FilterHas(m, members[..|members| - 1], actorType, n);
    }
  }

  /** A placement strategy: consistent hashing, or a wrapper that filters for another. */
  datatype Strategy =
    | ConsistentHash(ring: Ring, mapping: Option<Mapping>)
    | GroupAware(inner: Strategy, groups: Mapping)

  predicate Configured(p: Strategy) {
    match p
    case ConsistentHash(r, _) => r.virtualNodes > 0
    case GroupAware(inner, _) => Configured(inner)
  }

  function RingOf(p: Strategy): Ring {
    match p
    case ConsistentHash(r, _) => r
    case GroupAware(inner, _) => RingOf(inner)
  }

  function Hosts(m: Mapping, members: set<Node>, actorType: string): set<Node> {
    set n | n in members && CanHost(m, n, actorType)
  }

  /** The members that can host the actor under every filter of the strategy. */
  ghost function Eligible(p: Strategy, members: set<Node>, actorType: string): set<Node> {
    match p
    case ConsistentHash(_, m) => if m.None? then members else Hosts(m.value, members, actorType)
    case GroupAware(inner, m) => Eligible(inner, Hosts(m, members, actorType), actorType)
  }

  ghost function Members(ns: seq<Node>): set<Node> {
    set n | n in ns
  }

  function PlaceKey(actorType: string, actorId: string): string {
    actorType + ":" + actorId
  }

  /** Actors have different keys if no type has a colon in it. */
  lemma PlaceKeysDiffer(t: string, id: string, u: string, other: string)
    requires ':' !in t && ':' !in u && PlaceKey(t, id) == PlaceKey(u, other)
    ensures t == u && id == other
  {
    var k := PlaceKey(t, id);
    FirstColon(t, id, |u|);
    FirstColon(u, other, |t|);
    assert k[..|t|] == t && k[..|u|] == u && k[|t| + 1..] == id && k[|u| + 1..] == other;
  }

  lemma FirstColon(t: string, id: string, j: nat)
    requires ':' !in t && j < |PlaceKey(t, id)| && PlaceKey(t, id)[j] == ':'
    ensures |t| <= j
  {
  }

  /** What Place may return: nowhere if nobody is eligible, else a nearest eligible node. */
  ghost predicate Placed(p: Strategy, actorType: string, actorId: string, members: set<Node>, n: Node) {
    var nodes := Eligible(p, members, actorType);
    var r := RingOf(p);
    if nodes == {} then n == NOWHERE else Nearest(r, r.sum(PlaceKey(actorType, actorId)), nodes, n)
  }

  // ------------------------------------------------------------ who owns an actor

  ghost predicate UniqueIds(nodes: set<Node>) {
    && (forall n | n in nodes :: n.id != "")
    && (forall a, b | a in nodes && b in nodes && a.id == b.id :: a == b)
  }

  lemma {:induction false} EligibleWithout(p: Strategy, members: set<Node>, actorType: string, x: Node)
    ensures Eligible(p, members - {x}, actorType) == Eligible(p, members, actorType) - {x}
    ensures Eligible(p, members, actorType) <= members
  {
    match p
    case ConsistentHash(_, _) =>
    case GroupAware(inner, m) =>
      assert Hosts(m, members - {x}, actorType) == Hosts(m, members, actorType) - {x};
      EligibleWithout(inner, Hosts(m, members, actorType), actorType, x);
  }

  /** All nodes that share a view agree on the placement, and it does not depend on the order
      in which a view lists its members. */
  lemma PlacedUnique(p: Strategy, actorType: string, actorId: string, members: set<Node>, a: Node, b: Node)
    requires Clear(RingOf(p), Eligible(p, members, actorType))
    requires Placed(p, actorType, actorId, members, a) && Placed(p, actorType, actorId, members, b)
    ensures a == b
  {
    var nodes := Eligible(p, members, actorType);
    if nodes != {} {
      NearestUnique(RingOf(p), RingOf(p).sum(PlaceKey(actorType, actorId)), nodes, a, b);
    }
  }

  /** When a node leaves, exactly the actors it owned move. Read from right to left: when a
      node joins, an actor stays where it is unless it moves to the new node. */
  lemma OnlyItsActorsMove(p: Strategy, actorType: string, actorId: string, members: set<Node>, x: Node,
                          whole: Node, without: Node)
    requires UniqueIds(members) && Clear(RingOf(p), Eligible(p, members, actorType)) && x in members
    requires Placed(p, actorType, actorId, members, whole)
    requires Placed(p, actorType, actorId, members - {x}, without)
    ensures whole != without <==> whole == x
  {
    var key := RingOf(p).sum(PlaceKey(actorType, actorId));
    var nodes := Eligible(p, members, actorType);
    EligibleWithout(p, members, actorType, x);
    if nodes != {} && whole != x {
      var i: nat :| NearestAt(RingOf(p), key, nodes, whole, i);
      assert NearestAt(RingOf(p), key, nodes - {x}, whole, i);
      assert whole in nodes - {x};
      NearestUnique(RingOf(p), key, nodes - {x}, whole, without);
    }
  }

  /** What each member's own call of Place returned. */
  ghost predicate OwnViews(p: Strategy, actorType: string, actorId: string, members: set<Node>, places: map<Node, Node>) {
    places.Keys == members && forall m | m in members :: Placed(p, actorType, actorId, members, places[m])
  }

  /** At most one member says it should own the actor. */
  lemma AtMostOneOwner(p: Strategy, actorType: string, actorId: string, members: set<Node>, places: map<Node, Node>,
                       a: Node, b: Node)
    requires UniqueIds(members) && Clear(RingOf(p), Eligible(p, members, actorType))
    requires OwnViews(p, actorType, actorId, members, places) && a in members && b in members
    requires places[a].id == a.id && places[b].id == b.id
    ensures a == b
  {
    PlacedUnique(p, actorType, actorId, members, places[a], places[b]);
  }

  /** One does, unless nobody can host the actor: then none does. */
  lemma OwnerIffEligible(p: Strategy, actorType: string, actorId: string, members: set<Node>, places: map<Node, Node>)
    requires UniqueIds(members) && Clear(RingOf(p), Eligible(p, members, actorType))
    requires OwnViews(p, actorType, actorId, members, places)
    ensures (exists m :: m in members && places[m].id == m.id) <==> Eligible(p, members, actorType) != {}
  {
    var nodes := Eligible(p, members, actorType);
    if nodes != {} {
      var a :| a in nodes;
      EligibleWithout(p, members, actorType, a);
      var n := places[a];
      PlacedUnique(p, actorType, actorId, members, n, places[n]);
      assert n in members && places[n].id == n.id;
    }
  }

  /** The wrapper around consistent hashing is consistent hashing with that mapping, whether
      or not the inner strategy filters by it too. */
  lemma WrapperIsMapping(r: Ring, m: Mapping, inner: Option<Mapping>, actorType: string, actorId: string,
                         members: set<Node>, n: Node)
    requires inner == None || inner == Some(m)
    ensures Placed(GroupAware(ConsistentHash(r, inner), m), actorType, actorId, members, n)
      <==> Placed(ConsistentHash(r, Some(m)), actorType, actorId, members, n)
  {
    var p := GroupAware(ConsistentHash(r, inner), m);
    assert RingOf(p) == RingOf(p.inner) == r;
    assert Hosts(m, Hosts(m, members, actorType), actorType) == Hosts(m, members, actorType);
    assert Eligible(p, members, actorType) == Eligible(p.inner, Hosts(m, members, actorType), actorType);
  }

  /** A node is listed for a type of actor: it has no kind, or its kind's list names the type. */
  ghost predicate ListedFor(m: Mapping, n: Node, actorType: string) {
    n.kind == "" || (n.kind in m && exists i :: 0 <= i < |m[n.kind]| && m[n.kind][i] == actorType)
  }

  /** With a mapping, an actor is placed on a member that is listed for it, unless none is. */
  lemma PlacedWhereListed(r: Ring, m: Mapping, actorType: string, actorId: string, members: set<Node>, n: Node)
    requires r.virtualNodes > 0 && Placed(ConsistentHash(r, Some(m)), actorType, actorId, members, n)
    ensures if exists x :: x in members && ListedFor(m, x, actorType) then n in members && ListedFor(m, n, actorType)
            else n == NOWHERE
  {
    var hosts := Hosts(m, members, actorType);
    forall x | x in members ensures x in hosts <==> ListedFor(m, x, actorType) {
    }
    if hosts != {} {
      var i: nat :| NearestAt(r, r.sum(PlaceKey(actorType, actorId)), hosts, n, i);
    }
  }

  /** If no member has a kind, the wrapper makes no difference, whatever it wraps. */
  lemma HomogeneousIsTransparent(inner: Strategy, m: Mapping, actorType: string, actorId: string,
                                 members: set<Node>, n: Node)
    requires forall x | x in members :: x.kind == ""
    ensures Placed(GroupAware(inner, m), actorType, actorId, members, n)
      <==> Placed(inner, actorType, actorId, members, n)
  {
    assert Hosts(m, members, actorType) == members;
    assert Eligible(GroupAware(inner, m), members, actorType) == Eligible(inner, members, actorType);
  }

  /** The keys of nodes with different ids are all different, so nodes collide only if the
      checksum does: if it tells the keys in use apart, it is clear. */
  lemma CollisionsAreTheChecksums(r: Ring, nodes: set<Node>)
    requires UniqueIds(nodes)
    requires forall a, b, i: nat, j: nat | a in nodes && b in nodes && i < r.virtualNodes && j < r.virtualNodes
               && Point(r, a, i) == Point(r, b, j) :: Key(a.id, i) == Key(b.id, j)
    ensures Clear(r, nodes)
  {
    forall a, b, i: nat, j: nat | a in nodes && b in nodes && i < r.virtualNodes && j < r.virtualNodes
      && Point(r, a, i) == Point(r, b, j) ensures a == b
    {
      KeysDiffer(a.id, i, b.id, j);
    }
  }
}
