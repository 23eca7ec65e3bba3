/** What becomes of a message is decided by the answers it gets, and it gets one every time
    anything is sent or flushed. */
module PostponeFates {
  import opened Prelude
  import opened Postpone
  import opened PostponeLaws
  import opened PostponeOrder
  import opened PostponeLives

  // ------------------------------------------------------------ answers are acted upon

  ghost predicate Heeded(ans: Answers, c: Control, x: Item) {
    && |c.asked| == c.tick
    && (Got(ans, c.asked, x, Accepted) ==> x in c.delivered)
    && (Got(ans, c.asked, x, Refused) ==> x in c.refused)
  }

  lemma {:induction false} AnsweredHas(ans: Answers, tick: nat, items: seq<Item>, a: Answer, k: nat)
    requires k < |items| && ans(tick + k) == a
    ensures items[k] in Answered(ans, tick, items, a)
    decreases |items|
  {
    if k > 0 {
      AnsweredHas(ans, tick + 1, items[1..], a, k - 1);
    }
  }

  lemma GotBack(ans: Answers, asked: seq<Item>, items: seq<Item>, x: Item, a: Answer)
    requires Got(ans, asked + items, x, a)
    ensures Got(ans, asked, x, a) || x in Answered(ans, |asked|, items, a)
  {
    var t: nat :| GotAt(ans, asked + items, x, a, t);
    if t < |asked| {
      assert GotAt(ans, asked, x, a, t);
    } else {
      AnsweredHas(ans, |asked|, items, a, t - |asked|);
    }
  }

  /** Sending a list and noting the answers. */
  lemma SendHeeded(ans: Answers, c: Control, d: Control, items: seq<Item>, x: Item)
    requires Heeded(ans, c, x)
    requires d.asked == c.asked + items && d.tick == c.tick + |items|
    requires d.delivered == c.delivered + Answered(ans, c.tick, items, Accepted)
    requires d.refused == c.refused + Answered(ans, c.tick, items, Refused)
    ensures Heeded(ans, d, x)
  {
    if Got(ans, d.asked, x, Accepted) { GotBack(ans, c.asked, items, x, Accepted); }
    if Got(ans, d.asked, x, Refused) { GotBack(ans, c.asked, items, x, Refused); }
  }

  lemma RetryHeeded(ans: Answers, c: Control, x: Item)
    requires Heeded(ans, c, x)
    ensures Heeded(ans, Retry(ans, c), x)
  {
    if c.queue != [] {
      SendHeeded(ans, c, Retry(ans, c), c.queue, x);
    }
  }

  lemma PostHeeded(ans: Answers, c0: Control, id: Id, once: bool, x: Item)
    requires Heeded(ans, c0, x)
    ensures Heeded(ans, Post(ans, c0, id, once).0, x)
  {
    RetryHeeded(ans, c0, x);
    PostIsTried(ans, c0, id, once);
    var c := Retry(ans, c0);
    var y := Item(|c.posted|, id);
    var v := Post(ans, c0, id, once).1;
    SendHeeded(ans, c, Tried(ans, c, y, once, v != Postponed), if v == Postponed then [] else [y], x);
  }

  lemma MulticastHeeded(ans: Answers, c0: Control, ids: seq<Id>, found: bool, x: Item)
    requires Heeded(ans, c0, x)
    ensures Heeded(ans, Multicast(ans, c0, ids, found), x)
  {
    RetryHeeded(ans, c0, x);
    var c := Retry(ans, c0);
    var items := Items(|c.posted|, ids);
    var now := Split(items, c.waiting, false);
    if now == [] || found {
      var e := Note(Sending(Submit(c, items), now), Answered(ans, c.tick, now, Accepted), Answered(ans, c.tick, now, Refused));
      SendHeeded(ans, c, e, now, x);
    }
  }

  lemma DoHeeded(ans: Answers, c: Control, op: Op, x: Item)
    requires Heeded(ans, c, x)
    ensures Heeded(ans, Do(ans, c, op), x)
  {
    match op
    case OpPost(id, once) => PostHeeded(ans, c, id, once, x);
    case OpMulticast(ids, found) => MulticastHeeded(ans, c, ids, found, x);
    case OpFlush => RetryHeeded(ans, c.(armed := false), x);
    case OpEnd => RetryHeeded(ans, c.(armed := false, ended := Some(|c.posted|)), x);
  }

  lemma {:induction false} RunHeeded(ans: Answers, c: Control, ops: seq<Op>, x: Item)
    requires Heeded(ans, c, x)
    ensures Heeded(ans, DoAll(ans, c, ops), x)
    decreases |ops|
  {
    if ops != [] {
      DoHeeded(ans, c, ops[0], x);
      RunHeeded(ans, Do(ans, c, ops[0]), ops[1..], x);
    }
  }

  lemma BusyOrNot(ans: Answers, asked: seq<Item>, x: Item)
    ensures AlwaysBusy(ans, asked, x) <==> !Got(ans, asked, x, Accepted) && !Got(ans, asked, x, Refused)
  {
    if !AlwaysBusy(ans, asked, x) {
      var t: nat :| t < |asked| && asked[t] == x && ans(t) != Busy;
      assert GotAt(ans, asked, x, ans(t), t);
    }
  }

  /**
   Over any life: a message is delivered exactly if a target has accepted it, refused exactly
   if one has refused it, and as long as it has only met busy targets, or none, it is queued,
   given back to a caller who asked for one try, or reported lost.
   */
  lemma FateIsTheAnswers(ans: Answers, ops: seq<Op>, x: Item)
    ensures var c := DoAll(ans, FRESH, ops);
            x in c.posted ==>
              && (x in c.delivered <==> Got(ans, c.asked, x, Accepted))
              && (x in c.refused <==> Got(ans, c.asked, x, Refused))
              && (x in c.queue || x in c.returned || x in c.lost <==> AlwaysBusy(ans, c.asked, x))
  {
    var c := DoAll(ans, FRESH, ops);
    RunHeeded(ans, FRESH, ops, x);
    RunTold(ans, FRESH, ops, x);
    Conservation(ans, ops, x);
    BusyOrNot(ans, c.asked, x);
    TimesIn(c.delivered, x);
    TimesIn(c.refused, x);
    TimesIn(c.returned, x);
    TimesIn(c.lost, x);
    TimesIn(c.queue, x);
  }

  // ------------------------------------------------------------ and everyone is asked

  /** Every post, multicast, timer and the last flush first sends each queued message once
      more, in order; a post then sends its own unless one is queued for its target. */
  lemma EveryQueuedIsAsked(ans: Answers, c: Control, op: Op)
    requires op.OpFlush? ==> c.armed && c.ended.None?
    requires op.OpEnd? ==> c.ended.None?
    ensures var d := Do(ans, c, op);
            && c.asked + c.queue <= d.asked
            && (op.OpFlush? || op.OpEnd? ==> d.asked == c.asked + c.queue)
  {
    assert c.asked + [] == c.asked;
    RetryAsks(ans, c);
    match op
    case OpPost(id, once) => PostIsTried(ans, c, id, once);
    case OpMulticast(_, _) =>
    case OpFlush => RetryAsks(ans, c.(armed := false));
    case OpEnd => RetryAsks(ans, c.(armed := false, ended := Some(|c.posted|)));
  }

  lemma RetryAsks(ans: Answers, c: Control)
    ensures Retry(ans, c).asked == c.asked + c.queue
  {
    assert c.asked + [] == c.asked;
  }

  /**
   The last flush: every queued message is sent once more, and is delivered, refused or
   reported lost as its target accepts it, refuses it or is busy; and nothing else is.
   */
  lemma LastFlush(ans: Answers, ops: seq<Op>, k: nat)
    requires DoAll(ans, FRESH, ops).ended.None? && k < |DoAll(ans, FRESH, ops).queue|
    ensures var c := DoAll(ans, FRESH, ops);
            var d := Do(ans, c, OpEnd);
            var x := c.queue[k];
            && d.asked == c.asked + c.queue && d.queue == []
            && x !in c.delivered && x !in c.refused && x !in c.lost
            && (x in d.delivered <==> ans(c.tick + k) == Accepted)
            && (x in d.refused <==> ans(c.tick + k) == Refused)
            && (x in d.lost <==> ans(c.tick + k) == Busy)
  {
    var c := DoAll(ans, FRESH, ops);
    var x := c.queue[k];
    EveryQueuedIsAsked(ans, c, OpEnd);
    DoAllSnoc(ans, FRESH, ops, OpEnd);
    EndGrows(ans, c);
    InOnePlace(ans, ops, x);
    InOnePlace(ans, ops + [OpEnd], x);
    FlushedFate(ans, ops, k);
  }

  lemma FlushedFate(ans: Answers, ops: seq<Op>, k: nat)
    requires DoAll(ans, FRESH, ops).ended.None? && k < |DoAll(ans, FRESH, ops).queue|
    ensures var c := DoAll(ans, FRESH, ops);
            var d := Do(ans, c, OpEnd);
            var x := c.queue[k];
            match ans(c.tick + k)
            case Accepted => x in d.delivered
            case Refused => x in d.refused
            case Busy => x in d.lost
  {
    var c := DoAll(ans, FRESH, ops);
    var d := Do(ans, c, OpEnd);
    var x := c.queue[k];
    EveryQueuedIsAsked(ans, c, OpEnd);
    RunHeeded(ans, FRESH, ops, x);
    DoHeeded(ans, c, OpEnd, x);
    assert GotAt(ans, d.asked, x, ans(c.tick + k), c.tick + k);
    if ans(c.tick + k) == Busy {
      BusyAtTheEnd(ans, c, k);
    }
  }

  lemma BusyAtTheEnd(ans: Answers, c: Control, k: nat)
    requires c.ended.None? && k < |c.queue| && ans(c.tick + k) == Busy
    ensures c.queue[k] in Do(ans, c, OpEnd).lost
  {
    AnsweredHas(ans, c.tick, c.queue, Busy, k);
  }

  lemma EndGrows(ans: Answers, c: Control)
    ensures var d := End(ans, c);
            d.posted == c.posted && d.queue == [] && d.returned == c.returned
  {
  }

  /** A message that is in one list is in no other. */
  lemma InOnePlace(ans: Answers, ops: seq<Op>, x: Item)
    ensures var c := DoAll(ans, FRESH, ops);
            && (x in c.queue || x in c.delivered || x in c.refused || x in c.returned || x in c.lost <==> x in c.posted)
            && (x in c.queue ==> x !in c.delivered && x !in c.refused && x !in c.returned && x !in c.lost)
            && (x in c.delivered ==> x !in c.refused && x !in c.returned && x !in c.lost)
            && (x in c.refused ==> x !in c.returned && x !in c.lost)
            && (x in c.returned ==> x !in c.lost)
  {
    var c := DoAll(ans, FRESH, ops);
    Conservation(ans, ops, x);
    TimesIn(c.delivered, x);
    TimesIn(c.refused, x);
    TimesIn(c.returned, x);
    TimesIn(c.lost, x);
    TimesIn(c.queue, x);
  }

  /** What a post tells its caller is what became of the message; and it is held back exactly
      if an earlier one is queued for the target. */
  lemma VerdictIsTrue(ans: Answers, ops: seq<Op>, id: Id, once: bool)
    ensures var c := DoAll(ans, FRESH, ops);
            var (d, v) := Post(ans, c, id, once);
            var x := Item(|c.posted|, id);
            && d.posted == c.posted + [x]
            && (v == Sent <==> x in d.delivered) && (v == Failed <==> x in d.refused)
            && (v == Postponed || v == WasBusy <==> if once then x in d.returned else x in d.queue)
            && (v == Postponed <==> x !in d.asked)
            && (v == Postponed <==> exists y :: y in d.queue && y != x && y.target == id)
  {
    var c := DoAll(ans, FRESH, ops);
    var x := Item(|c.posted|, id);
    var (d, v) := Post(ans, c, id, once);
    RunHeeded(ans, FRESH, ops, x);
    RunTold(ans, FRESH, ops, x);
    RunKeeps(ans, FRESH, ops, x);
    RetryTold(ans, c, x) by { InOnePlace(ans, ops, x); SubmittedOnce(c.posted, x); }
  }

  /** Somebody waits for this target already. */
  ghost predicate WaitedFor(queue: seq<Item>, id: Id) {
    exists y :: y in queue && y.target == id
  }

  /**
   A multicast submits one message per target, in order, and sends at once exactly those for
   whose target nothing is still queued after the retry; what is queued stays ahead of them.
   Only if the group is missing and somebody would have been sent to is nothing submitted.
   */
  lemma MulticastTells(ans: Answers, ops: seq<Op>, ids: seq<Id>, found: bool)
    ensures var c := DoAll(ans, FRESH, ops);
            var kept := Do(ans, c, OpMulticast([], found)).queue;
            var d := Do(ans, c, OpMulticast(ids, found));
            && kept <= d.queue
            && (if !found && exists k :: 0 <= k < |ids| && !WaitedFor(kept, ids[k]) then d.posted == c.posted
                else
                  && |d.posted| == |c.posted| + |ids| && c.posted <= d.posted
                  && forall k | 0 <= k < |ids| ::
                       var x := d.posted[|c.posted| + k];
                       x.target == ids[k] && (x in d.asked <==> !WaitedFor(kept, ids[k])))
  {
    var c := DoAll(ans, FRESH, ops);
    NoneSent(ans, c, found);
    FreeTargets(ans, ops, ids);
    if Split(Items(|c.posted|, ids), Retry(ans, c).waiting, false) == [] || found {
      MulticastSends(ans, ops, ids, found);
    }
  }

  /** A multicast that finds its group, or does not need it. */
  lemma MulticastSends(ans: Answers, ops: seq<Op>, ids: seq<Id>, found: bool)
    requires var e := Retry(ans, DoAll(ans, FRESH, ops));
             Split(Items(|e.posted|, ids), e.waiting, false) == [] || found
    ensures var c := DoAll(ans, FRESH, ops);
            var kept := Retry(ans, c).queue;
            var d := Multicast(ans, c, ids, found);
            && kept <= d.queue && d.posted == c.posted + Items(|c.posted|, ids) && |Items(|c.posted|, ids)| == |ids|
            && forall k | 0 <= k < |ids| ::
                 var x := d.posted[|c.posted| + k];
                 x.target == ids[k] && (x in d.asked <==> !WaitedFor(kept, ids[k]))
  {
    var c := DoAll(ans, FRESH, ops);
    var items := Items(|c.posted|, ids);
    FreeTargets(ans, ops, ids);
    MulticastLists(ans, c, ids, found);
    NewUnsent(ans, ops, ids, found);
    ItemsShape(|c.posted|, ids);
    var d := Multicast(ans, c, ids, found);
    forall k | 0 <= k < |ids| ensures d.posted[|c.posted| + k] == items[k] && items[k] in items {
    }
  }

  /** Who is sent to at once. */
  lemma FreeTargets(ans: Answers, ops: seq<Op>, ids: seq<Id>)
    ensures var c := DoAll(ans, FRESH, ops);
            var e := Retry(ans, c);
            && e.posted == c.posted
            && (forall id :: id in e.waiting <==> WaitedFor(e.queue, id))
            && (Split(Items(|c.posted|, ids), e.waiting, false) == [] <==>
                  !exists k :: 0 <= k < |ids| && !WaitedFor(e.queue, ids[k]))
  {
    var c := DoAll(ans, FRESH, ops);
    RunKeeps(ans, FRESH, ops, Item(0, 0));
    RetryShape(ans, c);
    var e := Retry(ans, c);
    var items := Items(|c.posted|, ids);
    var now := Split(items, e.waiting, false);
    ItemsShape(|c.posted|, ids);
    SplitIn(items, e.waiting);
    assert forall k | 0 <= k < |ids| :: items[k] in items;
    if now != [] {
      assert now[0] in items;
    }
  }

  lemma NoneSent(ans: Answers, c: Control, found: bool)
    ensures Multicast(ans, c, [], found).queue == Retry(ans, c).queue
  {
  }

  lemma {:induction false} SplitIn(items: seq<Item>, waiting: set<Id>)
    ensures forall x :: x in Split(items, waiting, true) <==> x in items && x.target in waiting
    ensures forall x :: x in Split(items, waiting, false) <==> x in items && x.target !in waiting
    decreases |items|
  {
    if items != [] {
      SplitIn(items[1..], waiting);
      assert items == [items[0]] + items[1..];
    }
  }

  /** Of the new messages, those are sent whose target nobody waits for. */
  lemma NewUnsent(ans: Answers, ops: seq<Op>, ids: seq<Id>, found: bool)
    requires var c := Retry(ans, DoAll(ans, FRESH, ops));
             Split(Items(|c.posted|, ids), c.waiting, false) == [] || found
    ensures var c := DoAll(ans, FRESH, ops);
            var d := Multicast(ans, c, ids, found);
            var w := Retry(ans, c).waiting;
            forall x | x in Items(|c.posted|, ids) :: x in d.asked <==> x.target !in w
  {
    var c := DoAll(ans, FRESH, ops);
    var e := Retry(ans, c);
    var items := Items(|c.posted|, ids);
    var now := Split(items, e.waiting, false);
    SplitIn(items, e.waiting);
    RetryAsks(ans, c);
    assert Multicast(ans, c, ids, found).asked == (c.asked + c.queue) + now;
    forall x | x in items ensures x !in c.asked + c.queue {
      RunTold(ans, FRESH, ops, x);
      ItemsShape(|c.posted|, ids);
    }
  }
}
