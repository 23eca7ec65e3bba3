/**
 Placement as the program computes it: filter the members, build a ring of virtual nodes,
 sort it, search it. Proved against module Placement, which knows no ring.
 */
module PlacementMethods {
  import opened Prelude
  import opened Decimal
  import opened Placement

  datatype Entry = Entry(hash: Word, node: Node)

  // ------------------------------------------------------------ filtering

  method HasGroup(m: Mapping, n: Node, actorType: string) returns (r: bool)
    ensures r == CanHost(m, n, actorType)
    ensures r <==> n.kind == "" || (n.kind in m && exists i :: 0 <= i < |m[n.kind]| && m[n.kind][i] == actorType)
  {
    if n.kind == "" { return true; }
    if n.kind !in m { return false; }
    var groups, i := m[n.kind], 0;
    while i < |groups|
      invariant 0 <= i <= |groups| && actorType !in groups[..i]
    {
      if groups[i] == actorType { return true; }
      i := i + 1;
    }
    r := false;
  }

  method FilterByGroup(m: Mapping, members: seq<Node>, actorType: string) returns (filtered: seq<Node>)
    ensures filtered == Filter(m, members, actorType)
    ensures Members(filtered) == Hosts(m, Members(members), actorType)
  {
    filtered := [];
    var i := 0;
    while i < |members|
      invariant 0 <= i <= |members| && filtered == Filter(m, members[..i], actorType)
    {
      assert members[..i + 1][..i] == members[..i];
      var can := HasGroup(m, members[i], actorType);
      if can {
        filtered := filtered + [members[i]];
      }
      i := i + 1;
    }
    assert members[..i] == members;
    forall n ensures n in filtered <==> n in members && CanHost(m, n, actorType) {
      FilterHas(m, members, actorType, n);
    }
  }

  // ------------------------------------------------------------ the ring

  /** The ring has the points of the members' virtual nodes, and no others. */
  ghost predicate RingOk(r: Ring, members: set<Node>, ring: seq<Entry>) {
    && (forall e | e in ring :: e.node in members && exists i: nat :: i < r.virtualNodes && e.hash == Point(r, e.node, i))
    && (forall n, i: nat | n in members && i < r.virtualNodes :: Entry(Point(r, n, i), n) in ring)
  }

  method BuildRing(r: Ring, members: seq<Node>) returns (ring: seq<Entry>)
    ensures RingOk(r, Members(members), ring)
    ensures |ring| == |members| * r.virtualNodes
  {
    ring := [];
    var a := 0;
    while a < |members|
      invariant 0 <= a <= |members|
      invariant RingOk(r, Members(members[..a]), ring)
      invariant |ring| == a * r.virtualNodes
    {
      var node := members[a];
      ghost var done := ring;
      var i := 0;
      while i < r.virtualNodes
        invariant 0 <= i <= r.virtualNodes && |ring| == |done| + i
        invariant forall e | e in done :: e in ring
        invariant forall e | e in ring :: e in done || (e.node == node && exists j: nat :: j < i && e.hash == Point(r, node, j))
        invariant forall j: nat | j < i :: Entry(Point(r, node, j), node) in ring
      {
        var number := Itoa(i);
        var e := Entry(r.sum(node.id + "-" + number), node);
        assert e.hash == Point(r, node, i);
        ring := ring + [e];
        i := i + 1;
      }
      assert Members(members[..a + 1]) == Members(members[..a]) + {node};
      a := a + 1;
    }
    assert members[..a] == members;
  }

  ghost predicate Sorted(ring: seq<Entry>) {
    forall i, j | 0 <= i <= j < |ring| :: ring[i].hash <= ring[j].hash
  }

  /** Sort by hash. Which of two equal hashes comes first is not promised. */
  method SortByHash(ring: seq<Entry>) returns (s: seq<Entry>)
    ensures Sorted(s) && |s| == |ring|
    ensures forall e :: e in s <==> e in ring
  {
    s := [];
    var n := 0;
    while n < |ring|
      invariant 0 <= n <= |ring| == |ring[..n]| + (|ring| - n)
      invariant Sorted(s) && |s| == n
      invariant forall e :: e in s <==> e in ring[..n]
    {
      assert ring[..n + 1] == ring[..n] + [ring[n]];
      s := Insert(s, ring[n]);
      n := n + 1;
    }
    assert ring[..n] == ring;
  }

  method Insert(s: seq<Entry>, e: Entry) returns (t: seq<Entry>)
    requires Sorted(s)
    ensures Sorted(t) && |t| == |s| + 1
    ensures forall x :: x in t <==> x == e || x in s
  {
    var i := |s|;
    while i > 0 && e.hash < s[i - 1].hash
      invariant 0 <= i <= |s|
      invariant forall k | i <= k < |s| :: e.hash < s[k].hash
    {
      i := i - 1;
    }
    t := s[..i] + [e] + s[i..];
    InsertSorted(s, e, i);
    InsertHas(s, e, i);
  }

  lemma InsertSorted(s: seq<Entry>, e: Entry, i: nat)
    requires Sorted(s) && i <= |s|
    requires i > 0 ==> s[i - 1].hash <= e.hash
    requires forall k | i <= k < |s| :: e.hash < s[k].hash
    ensures Sorted(s[..i] + [e] + s[i..])
  {
    var t := s[..i] + [e] + s[i..];
    assert forall k | 0 <= k < |t| :: t[k] == if k < i then s[k] else if k == i then e else s[k - 1];
  }

  lemma InsertHas(s: seq<Entry>, e: Entry, i: nat)
    requires i <= |s|
    ensures forall x :: x in s[..i] + [e] + s[i..] <==> x == e || x in s
  {
    assert s == s[..i] + s[i..];
    assert forall x :: x in s <==> x in s[..i] || x in s[i..];
  }

  /** sort.Search: the first entry at or after the key. */
  method Search(ring: seq<Entry>, key: Word) returns (idx: nat)
    requires Sorted(ring)
    ensures idx <= |ring|
    ensures forall k | 0 <= k < |ring| :: ring[k].hash >= key <==> idx <= k
  {
    var i, j := 0, |ring|;
    while i < j
      invariant 0 <= i <= j <= |ring|
      invariant forall k | 0 <= k < i :: ring[k].hash < key
      invariant forall k | j <= k < |ring| :: key <= ring[k].hash
    {
      var h := (i + j) / 2;
      if ring[h].hash < key {
        i := h + 1;
      } else {
        j := h;
      }
    }
    idx := i;
  }

  /** The entry a search of a sorted ring stops at, going round, is the nearest clockwise. */
  lemma SearchIsNearest(ring: seq<Entry>, key: Word, idx: nat, k: nat)
    requires Sorted(ring) && idx <= |ring| && k < |ring|
    requires forall k | 0 <= k < |ring| :: ring[k].hash >= key <==> idx <= k
    ensures var at := if idx == |ring| then 0 else idx;
            Distance(key, ring[at].hash) <= Distance(key, ring[k].hash)
  {
    var at := if idx == |ring| then 0 else idx;
    DistanceCases(key, ring[at].hash);
    DistanceCases(key, ring[k].hash);
  }

  lemma DistanceCases(key: Word, p: Word)
    ensures Distance(key, p) == if p >= key then p - key else p - key + WORDS
  {
  }

  method PlaceOnRing(r: Ring, key: string, members: seq<Node>) returns (n: Node)
    requires r.virtualNodes > 0 && members != []
    ensures Nearest(r, r.sum(key), Members(members), n)
  {
    var built := BuildRing(r, members);
    var ring := SortByHash(built);
    var keyHash := r.sum(key);
    var idx := Search(ring, keyHash);
    assert |ring| > 0 by {
      assert Entry(Point(r, members[0], 0), members[0]) in built;
    }
    var at := if idx == |ring| then 0 else idx;
    n := ring[at].node;
    assert ring[at] in built;
    ghost var i: nat :| i < r.virtualNodes && ring[at].hash == Point(r, n, i);
    forall m, j: nat | m in Members(members) && j < r.virtualNodes
      ensures Distance(keyHash, Point(r, n, i)) <= Distance(keyHash, Point(r, m, j))
    {
      var e := Entry(Point(r, m, j), m);
      assert e in ring;
      var k :| 0 <= k < |ring| && ring[k] == e;
      SearchIsNearest(ring, keyHash, idx, k);
    }
    assert NearestAt(r, keyHash, Members(members), n, i);
  }

  // ------------------------------------------------------------ Place and its callers

  /** Place, of either strategy. With one eligible node no ring is built; that shows in
      nothing but the work saved. */
  method Place(p: Strategy, actorType: string, actorId: string, members: seq<Node>) returns (n: Node)
    requires Configured(p)
    ensures Placed(p, actorType, actorId, Members(members), n)
    decreases p
  {
    if p.GroupAware? {
      var eligible := FilterByGroup(p.groups, members, actorType);
      if |eligible| == 0 {
        NobodyEligible(p, Members(members), actorType);
        return NOWHERE;
      }
      n := Place(p.inner, actorType, actorId, eligible);
      return;
    }
    if |members| == 0 { return NOWHERE; }
    var eligible := members;
    if p.mapping.Some? {
      eligible := FilterByGroup(p.mapping.value, members, actorType);
    }
    assert Members(eligible) == Eligible(p, Members(members), actorType);
    if |eligible| == 0 { return NOWHERE; }
    assert eligible[0] in Members(eligible);
    var key := actorType + ":" + actorId;
    if |eligible| == 1 {
      n := eligible[0];
      OnlyNode(p.ring, p.ring.sum(key), n);
      assert Members(eligible) == {n};
      return;
    }
    n := PlaceOnRing(p.ring, key, eligible);
  }

  lemma OnlyNode(r: Ring, key: Word, n: Node)
    requires r.virtualNodes > 0
    ensures Nearest(r, key, {n}, n)
  {
    var i := BestIndex(r, key, n, r.virtualNodes);
    assert NearestAt(r, key, {n}, n, i);
  }

  lemma {:induction false} BestIndex(r: Ring, key: Word, n: Node, v: nat) returns (i: nat)
    requires v > 0
    ensures i < v && forall j: nat | j < v :: Distance(key, Point(r, n, i)) <= Distance(key, Point(r, n, j))
    decreases v
  {
    if v == 1 {
      i := 0;
    } else {
      i := BestIndex(r, key, n, v - 1);
      if Distance(key, Point(r, n, v - 1)) < Distance(key, Point(r, n, i)) {
        i := v - 1;
      }
    }
  }

  lemma NobodyEligible(p: Strategy, members: set<Node>, actorType: string)
    requires p.GroupAware? && Hosts(p.groups, members, actorType) == {}
    ensures Eligible(p, members, actorType) == {}
  {
    EligibleWithout(p.inner, {}, actorType, NOWHERE);
  }

  /** The view is sound: ids are unique and no collision blurs who the owner is. */
  ghost predicate SoundView(p: Strategy, actorType: string, members: set<Node>) {
    UniqueIds(members) && Clear(RingOf(p), Eligible(p, members, actorType))
  }

  /** Own exactly if this is the node placed. */
  method ShouldOwn(p: Strategy, members: seq<Node>, selfId: string, actorType: string, actorId: string) returns (own: bool)
    requires Configured(p)
    ensures own ==> exists n :: Placed(p, actorType, actorId, Members(members), n) && n.id == selfId
    ensures !own ==> exists n :: Placed(p, actorType, actorId, Members(members), n) && n.id != selfId
    ensures SoundView(p, actorType, Members(members)) ==>
              forall n | Placed(p, actorType, actorId, Members(members), n) :: own <==> n.id == selfId
  {
    var preferred := Place(p, actorType, actorId, members);
    if SoundView(p, actorType, Members(members)) {
      forall n | Placed(p, actorType, actorId, Members(members), n) ensures n == preferred {
        PlacedUnique(p, actorType, actorId, Members(members), n, preferred);
      }
    }
    own := preferred.id == selfId;
  }

  /** Leave exactly if somebody else is the owner; if nobody can host the actor, stay. */
  method CheckOwnership(p: Strategy, members: seq<Node>, selfId: string, actorType: string, actorId: string)
    returns (target: string, leave: bool)
    requires Configured(p)
    ensures leave ==> target != "" && target != selfId
    ensures SoundView(p, actorType, Members(members)) ==>
              (leave <==> Eligible(p, Members(members), actorType) != {}
                          && forall n | Placed(p, actorType, actorId, Members(members), n) :: n.id != selfId)
    ensures SoundView(p, actorType, Members(members)) ==>
              forall n | Placed(p, actorType, actorId, Members(members), n) :: target == if leave then n.id else ""
  {
    var preferred := Place(p, actorType, actorId, members);
    if SoundView(p, actorType, Members(members)) {
      forall n | Placed(p, actorType, actorId, Members(members), n) ensures n == preferred {
        PlacedUnique(p, actorType, actorId, Members(members), n, preferred);
      }
      EligibleWithout(p, Members(members), actorType, preferred);
    }
    if preferred.id == "" { return "", false; }
    if preferred.id != selfId { return preferred.id, true; }
    return "", false;
  }
}
