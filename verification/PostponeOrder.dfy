/** In which order postponed messages reach one target. */
module PostponeOrder {
  import opened Prelude
  import opened Postpone
  import opened PostponeLaws

  /** Messages of one list for one target are in submission order. */
  ghost predicate Ordered(s: seq<Item>) {
    forall i, j | 0 <= i < j < |s| && s[i].target == s[j].target :: s[i].serial < s[j].serial
  }

  ghost predicate Before(x: Item, y: Item) {
    x.target == y.target ==> x.serial < y.serial
  }

  /** What a has for a target was submitted before what b has for it. */
  ghost predicate Ahead(a: seq<Item>, b: seq<Item>) {
    forall x, y | x in a && y in b :: Before(x, y)
  }

  lemma OrderedConcat(a: seq<Item>, b: seq<Item>)
    ensures Ordered(a + b) <==> Ordered(a) && Ordered(b) && Ahead(a, b)
  {
    var s := a + b;
    if Ordered(s) {
      forall i, j | 0 <= i < j < |b| && b[i].target == b[j].target ensures b[i].serial < b[j].serial {
        assert s[|a| + i] == b[i] && s[|a| + j] == b[j];
      }
      forall i, j | 0 <= i < j < |a| && a[i].target == a[j].target ensures a[i].serial < a[j].serial {
        assert s[i] == a[i] && s[j] == a[j];
      }
      forall x, y | x in a && y in b ensures Before(x, y) {
        var i :| 0 <= i < |a| && a[i] == x;
        var j :| 0 <= j < |b| && b[j] == y;
        assert s[i] == x && s[|a| + j] == y;
      }
    } else if Ordered(a) && Ordered(b) && Ahead(a, b) {
      forall i, j | 0 <= i < j < |s| && s[i].target == s[j].target ensures s[i].serial < s[j].serial {
        if i < |a| <= j {
          assert a[i] in a && b[j - |a|] in b && Before(a[i], b[j - |a|]);
        }
      }
    }
  }

  lemma AheadConcat(a: seq<Item>, b: seq<Item>, c: seq<Item>)
    ensures Ahead(a + b, c) <==> Ahead(a, c) && Ahead(b, c)
    ensures Ahead(c, a + b) <==> Ahead(c, a) && Ahead(c, b)
  {
    assert forall x :: x in a + b <==> x in a || x in b;
  }

  /** Ordered, for a list in three parts. */
  lemma OrderedThree(a: seq<Item>, b: seq<Item>, c: seq<Item>)
    ensures Ordered(a + b + c) <==>
              Ordered(a) && Ordered(b) && Ordered(c) && Ahead(a, b) && Ahead(a, c) && Ahead(b, c)
  {
    OrderedConcat(a + b, c);
    OrderedConcat(a, b);
    AheadConcat(a, b, c);
  }

  // ------------------------------------------------------------ one list

  /** Once a target has answered busy, it accepts nothing later in the list. */
  ghost predicate Steady(ans: Answers, tick: nat, items: seq<Item>)
    decreases |items|
  {
    items != [] ==>
      && Steady(ans, tick + 1, items[1..])
      && (ans(tick) == Busy ==>
            forall y | y in Answered(ans, tick + 1, items[1..], Accepted) :: y.target != items[0].target)
  }

  lemma {:induction false} AnsweredOrder(ans: Answers, tick: nat, items: seq<Item>, a: Answer)
    requires Ordered(items)
    ensures Ordered(Answered(ans, tick, items, a))
    ensures forall x | x in Answered(ans, tick, items, a) :: x in items
    decreases |items|
  {
    if items != [] {
      OrderedConcat([items[0]], items[1..]);
      assert items == [items[0]] + items[1..];
      AnsweredOrder(ans, tick + 1, items[1..], a);
      OrderedConcat([items[0]], Answered(ans, tick + 1, items[1..], a));
    }
  }

  /** What a list's target accepts is ahead of what it is busy for exactly in a steady list. */
  lemma {:induction false} AheadIffSteady(ans: Answers, tick: nat, items: seq<Item>)
    requires Ordered(items)
    ensures Ahead(Answered(ans, tick, items, Accepted), Answered(ans, tick, items, Busy)) <==> Steady(ans, tick, items)
    decreases |items|
  {
    if items != [] {
      var x, rest := items[0], items[1..];
      assert items == [x] + rest;
      OrderedConcat([x], rest);
      AheadIffSteady(ans, tick + 1, rest);
      AnsweredOrder(ans, tick + 1, rest, Accepted);
      AnsweredOrder(ans, tick + 1, rest, Busy);
      var acc, busy := Answered(ans, tick + 1, rest, Accepted), Answered(ans, tick + 1, rest, Busy);
      AheadConcat([x], acc, busy);
      AheadConcat([x], busy, acc);
      FirstAhead(x, rest, acc, busy);
    }
  }

  /** The first of an ordered list is ahead of the rest; behind it is nothing for its target. */
  lemma FirstAhead(x: Item, rest: seq<Item>, acc: seq<Item>, busy: seq<Item>)
    requires Ahead([x], rest)
    requires forall y | y in acc :: y in rest
    requires forall y | y in busy :: y in rest
    ensures Ahead([x], busy)
    ensures Ahead(acc, [x]) <==> forall y | y in acc :: y.target != x.target
  {
    assert x in [x];
    forall y | y in acc && Before(y, x) ensures y.target != x.target {
      assert Before(x, y);
    }
  }

  // ------------------------------------------------------------ one operation

  /** Each target sees what it was sent in submission order, and will, if the queue goes out
      in order. */
  ghost predicate InOrder(c: Control) {
    Ordered(c.delivered + c.queue)
  }

  ghost predicate Past(c: Control) {
    && (forall x | x in c.delivered :: x.serial < |c.posted|)
    && (forall x | x in c.queue :: x.serial < |c.posted|)
  }

  lemma {:induction false} AnsweredIn(ans: Answers, tick: nat, items: seq<Item>, a: Answer)
    ensures forall x | x in Answered(ans, tick, items, a) :: x in items
    decreases |items|
  {
    if items != [] {
      AnsweredIn(ans, tick + 1, items[1..], a);
    }
  }

  lemma RetryPast(ans: Answers, c: Control)
    requires Past(c)
    ensures Past(Retry(ans, c))
  {
    AnsweredIn(ans, c.tick, c.queue, Accepted);
    AnsweredIn(ans, c.tick, c.queue, Busy);
  }

  /** A retry keeps the order exactly if no target that answers busy takes a later message. */
  lemma RetryOrder(ans: Answers, c: Control)
    requires InOrder(c)
    ensures InOrder(Retry(ans, c)) <==> Steady(ans, c.tick, c.queue)
  {
    if c.queue != [] {
      var acc, busy := Answered(ans, c.tick, c.queue, Accepted), Answered(ans, c.tick, c.queue, Busy);
      OrderedConcat(c.delivered, c.queue);
      AnsweredOrder(ans, c.tick, c.queue, Accepted);
      AnsweredOrder(ans, c.tick, c.queue, Busy);
      OrderedThree(c.delivered, acc, busy);
      AheadIffSteady(ans, c.tick, c.queue);
    }
  }

  /** A message sent at once overtakes nothing: none is queued for its target. */
  lemma FreshNeverOvertakes(ans: Answers, c: Control, id: Id, once: bool)
    requires Shape(c)
    ensures var (d, v) := Post(ans, c, id, once);
            v != Postponed ==> forall x | x in Retry(ans, c).queue :: x.target != id
  {
    RetryShape(ans, c);
  }

  lemma PlaceOrder(c: Control, x: Item, v: Verdict, once: bool)
    requires Past(c) && x.serial == |c.posted|
    requires v == Sent ==> forall y | y in c.queue :: y.target != x.target
    ensures InOrder(Place(c, x, v, once)) <==> InOrder(c)
  {
    OrderedThree(c.delivered, c.queue, [x]);
    OrderedThree(c.delivered, [x], c.queue);
    OrderedConcat(c.delivered, c.queue);
    assert c.delivered + (c.queue + [x]) == c.delivered + c.queue + [x];
    assert c.delivered + [] == c.delivered;
  }

  lemma PostOrder(ans: Answers, c: Control, id: Id, once: bool)
    requires Well(c) && Past(c) && InOrder(c)
    ensures InOrder(Post(ans, c, id, once).0) <==> Steady(ans, c.tick, c.queue)
    ensures Past(Post(ans, c, id, once).0)
  {
    RetryOrder(ans, c);
    RetryPast(ans, c);
    FreshNeverOvertakes(ans, c, id, once);
    var d := Retry(ans, c);
    PlaceOrder(d, Item(|d.posted|, id), Post(ans, c, id, once).1, once);
  }

  lemma {:induction false} SplitOrder(items: seq<Item>, waiting: set<Id>, behind: bool)
    requires Ordered(items)
    ensures Ordered(Split(items, waiting, behind))
    ensures forall x | x in Split(items, waiting, behind) :: x in items && (x.target in waiting) == behind
    decreases |items|
  {
    if items != [] {
      OrderedConcat([items[0]], items[1..]);
      assert items == [items[0]] + items[1..];
      SplitOrder(items[1..], waiting, behind);
      OrderedConcat([items[0]], Split(items[1..], waiting, behind));
    }
  }

  /** What the retries and the sends of an operation must meet for it to keep the order. */
  ghost predicate SteadyOp(ans: Answers, c: Control, op: Op) {
    match op
    case OpPost(_, _) => Steady(ans, c.tick, c.queue)
    case OpMulticast(ids, found) =>
      var d := Retry(ans, c);
      var now := Split(Items(|d.posted|, ids), d.waiting, false);
      Steady(ans, c.tick, c.queue) && (found ==> Steady(ans, d.tick, now))
    case OpFlush => c.armed && c.ended.None? ==> Steady(ans, c.tick, c.queue)
    case OpEnd => true
  }

  /** New messages, some for targets nothing is queued for, behind a queue. */
  lemma MixOrder(delivered: seq<Item>, queue: seq<Item>, acc: seq<Item>, busy: seq<Item>, later: seq<Item>, next: nat)
    requires forall x | x in delivered + queue :: x.serial < next
    requires forall x | x in acc + busy + later :: next <= x.serial
    requires forall x, y | x in acc + busy && y in queue + later :: x.target != y.target
    requires Ordered(acc) && Ordered(busy) && Ordered(later)
    ensures Ordered((delivered + acc) + (queue + busy + later)) <==> Ordered(delivered + queue) && Ahead(acc, busy)
  {
    var old0, d := delivered + queue, delivered + acc;
    assert forall x :: x in old0 <==> x in delivered || x in queue;
    assert forall x :: x in acc + busy <==> x in acc || x in busy;
    assert forall x :: x in queue + later <==> x in queue || x in later;
    assert forall x :: x in acc + busy + later <==> x in acc || x in busy || x in later;
    OrderedConcat(delivered, queue);
    OrderedConcat(delivered, acc);
    OrderedThree(queue, busy, later);
    OrderedConcat(d, queue + busy + later);
    AheadConcat(delivered, acc, queue + busy + later);
    AheadConcat(queue, busy, later);
    MixAhead(delivered, queue, acc, busy, later);
  }

  lemma MixAhead(delivered: seq<Item>, queue: seq<Item>, acc: seq<Item>, busy: seq<Item>, later: seq<Item>)
    ensures Ahead(delivered, queue + busy + later) <==>
              Ahead(delivered, queue) && Ahead(delivered, busy) && Ahead(delivered, later)
    ensures Ahead(acc, queue + busy + later) <==> Ahead(acc, queue) && Ahead(acc, busy) && Ahead(acc, later)
  {
    AheadConcat(queue + busy, later, delivered);
    AheadConcat(queue, busy, delivered);
    AheadConcat(queue + busy, later, acc);
    AheadConcat(queue, busy, acc);
  }

  lemma ItemsOrder(next: nat, ids: seq<Id>)
    ensures Ordered(Items(next, ids))
    ensures forall x | x in Items(next, ids) :: next <= x.serial < next + |ids|
  {
    ItemsShape(next, ids);
  }

  /** The three lists a multicast makes of its messages. */
  lemma SentLists(ans: Answers, tick: nat, items: seq<Item>, waiting: set<Id>)
    requires Ordered(items)
    ensures var now, later := Split(items, waiting, false), Split(items, waiting, true);
            var acc, busy := Answered(ans, tick, now, Accepted), Answered(ans, tick, now, Busy);
            && Ordered(acc) && Ordered(busy) && Ordered(later)
            && (Ahead(acc, busy) <==> Steady(ans, tick, now))
            && (forall x | x in acc + busy :: x in items && x.target !in waiting)
            && (forall x | x in later :: x in items && x.target in waiting)
  {
    SplitOrder(items, waiting, false);
    SplitOrder(items, waiting, true);
    var now := Split(items, waiting, false);
    AnsweredOrder(ans, tick, now, Accepted);
    AnsweredOrder(ans, tick, now, Busy);
    AheadIffSteady(ans, tick, now);
  }

  lemma MulticastOrder(ans: Answers, c: Control, ids: seq<Id>, found: bool)
    requires Well(c) && Past(c) && InOrder(c)
    ensures InOrder(Multicast(ans, c, ids, found)) <==> SteadyOp(ans, c, OpMulticast(ids, found))
  {
    RetryOrder(ans, c);
    var d := Retry(ans, c);
    if found || Split(Items(|d.posted|, ids), d.waiting, false) == [] {
      MulticastMixes(ans, c, ids, found);
    }
  }

  lemma MulticastMixes(ans: Answers, c: Control, ids: seq<Id>, found: bool)
    requires Well(c) && Past(c)
    requires found || Split(Items(|Retry(ans, c).posted|, ids), Retry(ans, c).waiting, false) == []
    ensures var d := Retry(ans, c);
            InOrder(Multicast(ans, c, ids, found)) <==>
              InOrder(d) && Steady(ans, d.tick, Split(Items(|d.posted|, ids), d.waiting, false))
  {
    RetryPast(ans, c);
    RetryShape(ans, c);
    var d := Retry(ans, c);
    var items := Items(|d.posted|, ids);
    var now := Split(items, d.waiting, false);
    ItemsOrder(|d.posted|, ids);
    SentLists(ans, d.tick, items, d.waiting);
    MulticastLists(ans, c, ids, found);
    MixSent(d, items, Answered(ans, d.tick, now, Accepted), Answered(ans, d.tick, now, Busy), Split(items, d.waiting, true));
  }

  lemma MixSent(d: Control, items: seq<Item>, acc: seq<Item>, busy: seq<Item>, later: seq<Item>)
    requires Past(d) && d.waiting == Targets(d.queue)
    requires forall x | x in items :: |d.posted| <= x.serial
    requires Ordered(acc) && Ordered(busy) && Ordered(later)
    requires forall x | x in acc + busy :: x in items && x.target !in d.waiting
    requires forall x | x in later :: x in items && x.target in d.waiting
    ensures Ordered((d.delivered + acc) + (d.queue + busy + later)) <==> InOrder(d) && Ahead(acc, busy)
  {
    MixOrder(d.delivered, d.queue, acc, busy, later, |d.posted|);
  }

  lemma MulticastPast(ans: Answers, c: Control, ids: seq<Id>, found: bool)
    requires Past(c)
    ensures Past(Multicast(ans, c, ids, found))
  {
    RetryPast(ans, c);
    var d := Retry(ans, c);
    var items := Items(|d.posted|, ids);
    var now, later := Split(items, d.waiting, false), Split(items, d.waiting, true);
    if now == [] || found {
      ItemsOrder(|d.posted|, ids);
      ItemsShape(|d.posted|, ids);
      SplitOrder(items, d.waiting, false);
      SplitOrder(items, d.waiting, true);
      AnsweredIn(ans, d.tick, now, Accepted);
      AnsweredIn(ans, d.tick, now, Busy);
      MulticastLists(ans, c, ids, found);
    }
  }

  /** What a multicast leaves delivered and queued. */
  lemma MulticastLists(ans: Answers, c: Control, ids: seq<Id>, found: bool)
    requires Split(Items(|Retry(ans, c).posted|, ids), Retry(ans, c).waiting, false) == [] || found
    ensures var d := Retry(ans, c);
            var items := Items(|d.posted|, ids);
            var now, later := Split(items, d.waiting, false), Split(items, d.waiting, true);
            var e := Multicast(ans, c, ids, found);
            && e.delivered == d.delivered + Answered(ans, d.tick, now, Accepted)
            && e.queue == d.queue + Answered(ans, d.tick, now, Busy) + later
            && e.posted == d.posted + items
  {
    var d := Retry(ans, c);
    var items := Items(|d.posted|, ids);
    var now, later := Split(items, d.waiting, false), Split(items, d.waiting, true);
    var c1 := Note(Sending(Submit(d, items), now),
                   Answered(ans, d.tick, now, Accepted), Answered(ans, d.tick, now, Refused));
    AppendQueues(c1, Answered(ans, d.tick, now, Busy));
    AppendQueues(Append(c1, Answered(ans, d.tick, now, Busy)), later);
  }

  lemma AppendQueues(c: Control, items: seq<Item>)
    ensures Append(c, items).queue == c.queue + items
  {
  }

  lemma EndOrder(ans: Answers, c: Control)
    requires Past(c) && InOrder(c)
    ensures InOrder(End(ans, c)) && Past(End(ans, c))
  {
    var d := c.(armed := false, ended := Some(|c.posted|));
    RetryPast(ans, d);
    OrderedConcat(c.delivered, c.queue);
    AnsweredOrder(ans, c.tick, c.queue, Accepted);
    OrderedConcat(c.delivered, Answered(ans, c.tick, c.queue, Accepted));
    assert End(ans, c).delivered + [] == End(ans, c).delivered;
  }

  /** One operation keeps every target's order exactly if it is steady. */
  lemma DoOrder(ans: Answers, c: Control, op: Op)
    requires Well(c) && Past(c) && InOrder(c)
    ensures InOrder(Do(ans, c, op)) <==> SteadyOp(ans, c, op)
    ensures Past(Do(ans, c, op))
  {
    match op
    case OpPost(id, once) => PostOrder(ans, c, id, once);
    case OpMulticast(ids, found) => MulticastOrder(ans, c, ids, found); MulticastPast(ans, c, ids, found);
    case OpFlush => RetryOrder(ans, c.(armed := false)); RetryPast(ans, c.(armed := false));
    case OpEnd => EndOrder(ans, c);
  }

  // ------------------------------------------------------------ whole lives

  ghost predicate SteadyRun(ans: Answers, c: Control, ops: seq<Op>)
    decreases |ops|
  {
    ops == [] || (SteadyOp(ans, c, ops[0]) && SteadyRun(ans, Do(ans, c, ops[0]), ops[1..]))
  }

  lemma {:induction false} RunOrder(ans: Answers, c: Control, ops: seq<Op>)
    requires Well(c) && Past(c) && InOrder(c) && SteadyRun(ans, c, ops)
    ensures InOrder(DoAll(ans, c, ops))
    decreases |ops|
  {
    if ops != [] {
      DoOrder(ans, c, ops[0]);
      DoShape(ans, c, ops[0]);
      RunOrder(ans, Do(ans, c, ops[0]), ops[1..]);
    }
  }

  /** If within one pass over the queue, and within one multicast, a target that answers busy
      takes no later message, every target is delivered its messages in submission order over
      the whole life, and whatever is still queued for it comes after them. */
  lemma DeliveredInOrder(ans: Answers, ops: seq<Op>)
    requires SteadyRun(ans, FRESH, ops)
    ensures var c := DoAll(ans, FRESH, ops);
            forall i, j | 0 <= i < j < |c.delivered| && c.delivered[i].target == c.delivered[j].target ::
              c.delivered[i].serial < c.delivered[j].serial
    ensures var c := DoAll(ans, FRESH, ops);
            forall x, y | x in c.delivered && y in c.queue && x.target == y.target :: x.serial < y.serial
  {
    RunOrder(ans, FRESH, ops);
    InOrderMeans(DoAll(ans, FRESH, ops));
  }

  lemma InOrderMeans(c: Control)
    requires InOrder(c)
    ensures forall i, j | 0 <= i < j < |c.delivered| && c.delivered[i].target == c.delivered[j].target ::
              c.delivered[i].serial < c.delivered[j].serial
    ensures forall x, y | x in c.delivered && y in c.queue && x.target == y.target :: x.serial < y.serial
  {
    OrderedConcat(c.delivered, c.queue);
    assert forall x, y | x in c.delivered && y in c.queue :: Before(x, y);
  }

  /** Answers of a target that is busy for the first three sends of a life. */
  function BusyThrice(n: nat): Answer {
    if n < 3 then Busy else Accepted
  }

  const ONE: Item := Item(0, 0)
  const TWO: Item := Item(1, 0)

  /** Two messages queued for one target. */
  const BOTH_QUEUED: Control := Control([ONE, TWO], {0}, true, 2, [ONE, TWO], [], [], [], [], [ONE, ONE], {}, None)

  const TWO_DELIVERED: Control := Control([ONE], {0}, true, 4, [ONE, TWO], [TWO], [], [], [], [ONE, ONE, ONE, TWO], {}, None)

  lemma AnsweredOne(ans: Answers, tick: nat, x: Item, a: Answer)
    ensures Answered(ans, tick, [x], a) == if ans(tick) == a then [x] else []
  {
    assert [x][1..] == [];
  }

  lemma QueueBoth()
    ensures DoAll(BusyThrice, FRESH, [OpPost(0, false), OpPost(0, false)]) == BOTH_QUEUED
  {
    var op := OpPost(0, false);
    var c1 := FRESH.(queue := [ONE], waiting := {0}, armed := true, tick := 1, posted := [ONE], asked := [ONE]);
    assert Targets([ONE]) == {0};
    assert Do(BusyThrice, FRESH, op) == c1;
    AnsweredOne(BusyThrice, 1, ONE, Accepted);
    AnsweredOne(BusyThrice, 1, ONE, Busy);
    AnsweredOne(BusyThrice, 1, ONE, Refused);
    assert Retry(BusyThrice, c1) == c1.(tick := 2, asked := [ONE, ONE]);
    assert Targets([TWO]) == {0};
    assert Do(BusyThrice, c1, op) == BOTH_QUEUED;
    assert [op, op][1..] == [op] && [op][1..] == [];
  }

  lemma FlushBoth()
    ensures Do(BusyThrice, BOTH_QUEUED, OpFlush) == TWO_DELIVERED
    ensures !SteadyOp(BusyThrice, BOTH_QUEUED, OpFlush)
  {
    assert [ONE, TWO][1..] == [TWO];
    AnsweredOne(BusyThrice, 3, TWO, Accepted);
    AnsweredOne(BusyThrice, 3, TWO, Busy);
    AnsweredOne(BusyThrice, 3, TWO, Refused);
    assert Targets([ONE]) == {0};
    assert TWO in Answered(BusyThrice, 3, [TWO], Accepted);
  }

  lemma FlushLast()
    ensures Do(BusyThrice, TWO_DELIVERED, OpFlush).delivered == [TWO, ONE]
  {
    AnsweredOne(BusyThrice, 4, ONE, Accepted);
  }

  /** Without that the order can be lost: two messages are queued for one target, which is
      busy for the first and takes the second in the same pass. */
  lemma OrderCanBeLost()
    ensures var ops := [OpPost(0, false), OpPost(0, false), OpFlush, OpFlush];
            DoAll(BusyThrice, FRESH, ops).delivered == [TWO, ONE]
  {
    var two := [OpPost(0, false), OpPost(0, false)];
    QueueBoth();
    FlushBoth();
    DoAllSnoc(BusyThrice, FRESH, two, OpFlush);
    DoAllSnoc(BusyThrice, FRESH, two + [OpFlush], OpFlush);
    FlushLast();
    assert two + [OpFlush] + [OpFlush] == [OpPost(0, false), OpPost(0, false), OpFlush, OpFlush];
  }
}
