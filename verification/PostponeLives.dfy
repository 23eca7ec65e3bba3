/**
 How the messages of a life end, to the return of its OnQuit hook: the last flush comes
 before that hook, so what the hook posts and its target is busy for is never looked at
 again.
 */
module PostponeLives {
  import opened Prelude
  import opened Postpone
  import opened PostponeLaws
  import opened PostponeOrder

  // ------------------------------------------------------------ what was sent

  /** This message was sent and got this answer. */
  ghost predicate Got(ans: Answers, asked: seq<Item>, x: Item, a: Answer) {
    exists t: nat :: GotAt(ans, asked, x, a, t)
  }

  predicate GotAt(ans: Answers, asked: seq<Item>, x: Item, a: Answer, t: nat) {
    t < |asked| && asked[t] == x && ans(t) == a
  }

  /** Whenever this message was sent, the target was busy. */
  predicate AlwaysBusy(ans: Answers, asked: seq<Item>, x: Item) {
    forall t: nat | t < |asked| && asked[t] == x :: ans(t) == Busy
  }

  lemma {:induction false} AnsweredAt(ans: Answers, tick: nat, items: seq<Item>, a: Answer, x: Item) returns (k: nat)
    requires x in Answered(ans, tick, items, a)
    ensures k < |items| && items[k] == x && ans(tick + k) == a
    decreases |items|
  {
    if ans(tick) == a && items[0] == x {
      k := 0;
    } else {
      var j := AnsweredAt(ans, tick + 1, items[1..], a, x);
      k := j + 1;
    }
  }

  lemma {:induction false} TimesTwo(s: seq<Item>, i: nat, j: nat)
    requires i < j < |s| && s[i] == s[j]
    ensures Times(s, s[i]) >= 2
    decreases |s|
  {
    if i == 0 {
      TimesAt(s[1..], j - 1);
    } else {
      TimesTwo(s[1..], i - 1, j - 1);
    }
  }

  lemma {:induction false} TimesAt(s: seq<Item>, i: nat)
    requires i < |s|
    ensures Times(s, s[i]) >= 1
    decreases |s|
  {
    if i > 0 {
      TimesAt(s[1..], i - 1);
    }
  }

  lemma {:induction false} TimesIn(s: seq<Item>, x: Item)
    ensures Times(s, x) > 0 <==> x in s
    decreases |s|
  {
    if s != [] {
      TimesIn(s[1..], x);
      assert s == [s[0]] + s[1..];
    }
  }

  /** Sending a list, and what that adds to what has been sent. */
  lemma AskGot(ans: Answers, asked: seq<Item>, items: seq<Item>, x: Item, a: Answer)
    ensures Got(ans, asked, x, a) || x in Answered(ans, |asked|, items, a) ==> Got(ans, asked + items, x, a)
  {
    if Got(ans, asked, x, a) {
      var t: nat :| GotAt(ans, asked, x, a, t);
      assert GotAt(ans, asked + items, x, a, t);
    }
    if x in Answered(ans, |asked|, items, a) {
      var k := AnsweredAt(ans, |asked|, items, a, x);
      assert GotAt(ans, asked + items, x, a, |asked| + k);
    }
  }

  lemma AskBusy(ans: Answers, asked: seq<Item>, items: seq<Item>, x: Item)
    requires AlwaysBusy(ans, asked, x) && Times(items, x) <= 1
    requires x in items ==> x in Answered(ans, |asked|, items, Busy)
    ensures AlwaysBusy(ans, asked + items, x)
  {
    forall t: nat | t < |asked + items| && (asked + items)[t] == x ensures ans(t) == Busy {
      if t >= |asked| {
        var i := t - |asked|;
        assert items[i] == x;
        var k := AnsweredAt(ans, |asked|, items, Busy, x);
        if i < k { TimesTwo(items, i, k); } else if k < i { TimesTwo(items, k, i); }
      }
    }
  }

  /** What has never been sent has never met anything but a busy target. */
  lemma NeverAsked(ans: Answers, asked: seq<Item>, x: Item)
    requires x !in asked
    ensures AlwaysBusy(ans, asked, x)
  {
  }

  // ------------------------------------------------------------ what every operation keeps

  /** What is told of one message by the places it is in. */
  ghost predicate Told(ans: Answers, c: Control, x: Item) {
    && (x in c.delivered ==> Got(ans, c.asked, x, Accepted))
    && (x in c.refused ==> Got(ans, c.asked, x, Refused))
    && (x in c.returned ==> x.serial in c.once)
    && (x in c.lost ==> c.ended.Some? && x.serial < c.ended.value)
    && (x in c.queue ==> QueuedFor(ans, c, x))
    && (x in c.asked || x in c.queue ==> x.serial < |c.posted|)
  }

  /** Why a message is queued. */
  predicate QueuedFor(ans: Answers, c: Control, x: Item) {
    && AlwaysBusy(ans, c.asked, x) && x.serial !in c.once
    && (c.ended.Some? ==> x.serial >= c.ended.value)
  }

  predicate Counts(c: Control) {
    && |c.asked| == c.tick
    && (forall n | n in c.once :: n < |c.posted|)
    && (c.ended.Some? ==> c.ended.value <= |c.posted|)
  }

  ghost predicate Tidy(ans: Answers, c: Control, x: Item) {
    Counts(c) && Told(ans, c, x)
  }

  lemma RetryTold(ans: Answers, c: Control, x: Item)
    requires Tidy(ans, c, x) && Times(c.queue, x) <= 1
    ensures Tidy(ans, Retry(ans, c), x)
  {
    var d := Retry(ans, c);
    if c.queue != [] {
      AskGot(ans, c.asked, c.queue, x, Accepted);
      AskGot(ans, c.asked, c.queue, x, Refused);
      AnsweredIn(ans, c.tick, c.queue, Busy);
      AnsweredIn(ans, c.tick, c.queue, Accepted);
      AnsweredIn(ans, c.tick, c.queue, Refused);
      if x in d.queue {
        AskBusy(ans, c.asked, c.queue, x);
      }
    }
  }

  /** Sending some new messages, and noting the answers; the busy ones are yet to be placed. */
  lemma SendTold(ans: Answers, c: Control, news: seq<Item>, now: seq<Item>, x: Item)
    requires Tidy(ans, c, x)
    requires forall y | y in now :: |c.posted| <= y.serial < |c.posted| + |news|
    ensures var d := Note(Sending(Submit(c, news), now), Answered(ans, c.tick, now, Accepted), Answered(ans, c.tick, now, Refused));
            Tidy(ans, d, x)
  {
    var e := Sending(Submit(c, news), now);
    var d := Note(e, Answered(ans, c.tick, now, Accepted), Answered(ans, c.tick, now, Refused));
    AskGot(ans, c.asked, now, x, Accepted);
    AskGot(ans, c.asked, now, x, Refused);
    if x in c.queue {
      AskBusy(ans, c.asked, now, x) by {
        TimesIn(now, x);
      }
    }
  }

  /** Queueing a new message that was not sent, or was answered busy. */
  lemma AppendTold(ans: Answers, c: Control, items: seq<Item>, x: Item)
    requires Tidy(ans, c, x)
    requires x in items ==> AlwaysBusy(ans, c.asked, x) && x.serial !in c.once && x.serial < |c.posted|
                            && (c.ended.Some? ==> x.serial >= c.ended.value)
    ensures Tidy(ans, Append(c, items), x)
  {
    AppendQueues(c, items);
  }

  /** What a post has come to before it is known where the message goes. */
  function Tried(ans: Answers, c: Control, y: Item, once: bool, sent: bool): Control {
    var now := if sent then [y] else [];
    Mark(Note(Sending(Submit(c, [y]), now), Answered(ans, c.tick, now, Accepted), Answered(ans, c.tick, now, Refused)), y, once)
  }

  lemma TriedNotes(ans: Answers, c: Control, y: Item, once: bool, sent: bool)
    ensures var e := Tried(ans, c, y, once, sent);
            var d := Sending(Mark(Submit(c, [y]), y, once), if sent then [y] else []);
            e == if sent && ans(c.tick) == Accepted then Note(d, [y], [])
                 else if sent && ans(c.tick) == Refused then Note(d, [], [y]) else d
  {
    AnsweredOne(ans, c.tick, y, Accepted);
    AnsweredOne(ans, c.tick, y, Refused);
    assert c.delivered + [] == c.delivered && c.refused + [] == c.refused;
  }

  lemma PostIsTried(ans: Answers, c0: Control, id: Id, once: bool)
    ensures var c := Retry(ans, c0);
            var y := Item(|c.posted|, id);
            var (d, v) := Post(ans, c0, id, once);
            var e := Tried(ans, c, y, once, v != Postponed);
            d == match v
                 case Sent => e
                 case Failed => e
                 case _ => if once then GiveBack(e, y) else Append(e, [y])
  {
    var c := Retry(ans, c0);
    TriedNotes(ans, c, Item(|c.posted|, id), once, id !in c.waiting);
  }

  lemma TriedTold(ans: Answers, c: Control, y: Item, once: bool, sent: bool, x: Item)
    requires Tidy(ans, c, x) && y.serial == |c.posted|
    ensures Tidy(ans, Tried(ans, c, y, once, sent), x)
  {
    var now := if sent then [y] else [];
    SendTold(ans, c, [y], now, x);
  }

  lemma TriedBusy(ans: Answers, c: Control, y: Item, once: bool, sent: bool)
    requires Tidy(ans, c, y) && y.serial == |c.posted| && (sent ==> ans(c.tick) == Busy)
    ensures AlwaysBusy(ans, Tried(ans, c, y, once, sent).asked, y)
  {
    NeverAsked(ans, c.asked, y);
  }

  lemma PostTold(ans: Answers, c0: Control, id: Id, once: bool, x: Item)
    requires Tidy(ans, c0, x) && Times(c0.queue, x) <= 1
    ensures Tidy(ans, Post(ans, c0, id, once).0, x)
  {
    RetryTold(ans, c0, x);
    PostIsTried(ans, c0, id, once);
    var c := Retry(ans, c0);
    var y := Item(|c.posted|, id);
    var v := Post(ans, c0, id, once).1;
    var e := Tried(ans, c, y, once, v != Postponed);
    TriedTold(ans, c, y, once, v != Postponed, x);
    if v != Sent && v != Failed && !once {
      if x == y {
        TriedBusy(ans, c, y, once, v != Postponed);
      }
      AppendTold(ans, e, [y], x);
    }
  }

  /** Which messages of a multicast are queued. */
  lemma MulticastQueued(ans: Answers, c: Control, ids: seq<Id>, x: Item)
    requires Tidy(ans, c, x)
    ensures var items := Items(|c.posted|, ids);
            var now, later := Split(items, c.waiting, false), Split(items, c.waiting, true);
            && (forall y | y in now || y in later :: |c.posted| <= y.serial < |c.posted| + |items|)
            && (x in Answered(ans, c.tick, now, Busy) || x in later ==>
                  |c.posted| <= x.serial < |c.posted| + |items| && AlwaysBusy(ans, c.asked + now, x))
  {
    var items := Items(|c.posted|, ids);
    var now, later := Split(items, c.waiting, false), Split(items, c.waiting, true);
    ItemsOrder(|c.posted|, ids);
    ItemsShape(|c.posted|, ids);
    SplitOrder(items, c.waiting, false);
    SplitOrder(items, c.waiting, true);
    AnsweredIn(ans, c.tick, now, Busy);
    if x in Answered(ans, c.tick, now, Busy) || x in later {
      ItemsTimes(|c.posted|, ids, x);
      SplitParts(items, c.waiting, x);
      TimesIn(now, x);
      TimesIn(later, x);
      NewBusy(ans, c, now, x);
    }
  }

  lemma MulticastTold(ans: Answers, c0: Control, ids: seq<Id>, found: bool, x: Item)
    requires Tidy(ans, c0, x) && Times(c0.queue, x) <= 1
    ensures Tidy(ans, Multicast(ans, c0, ids, found), x)
  {
    RetryTold(ans, c0, x);
    var c := Retry(ans, c0);
    var items := Items(|c.posted|, ids);
    var now, later := Split(items, c.waiting, false), Split(items, c.waiting, true);
    if now == [] || found {
      MulticastQueued(ans, c, ids, x);
      SendTold(ans, c, items, now, x);
      var e := Note(Sending(Submit(c, items), now), Answered(ans, c.tick, now, Accepted), Answered(ans, c.tick, now, Refused));
      var busy := Answered(ans, c.tick, now, Busy);
      AppendTold(ans, e, busy, x);
      AppendTold(ans, Append(e, busy), later, x);
    }
  }

  /** A new message that is not sent, or is answered busy, has only ever met a busy target. */
  lemma NewBusy(ans: Answers, c: Control, now: seq<Item>, x: Item)
    requires Tidy(ans, c, x) && |c.posted| <= x.serial && Times(now, x) <= 1
    requires x in now ==> x in Answered(ans, c.tick, now, Busy)
    ensures AlwaysBusy(ans, c.asked + now, x)
  {
    NeverAsked(ans, c.asked, x);
    AskBusy(ans, c.asked, now, x);
  }

  lemma {:induction false} ItemsTimes(next: nat, ids: seq<Id>, x: Item)
    ensures Times(Items(next, ids), x) <= 1 && (x.serial < next ==> Times(Items(next, ids), x) == 0)
    decreases |ids|
  {
    if ids != [] {
      ItemsTimes(next + 1, ids[1..], x);
      assert Items(next, ids)[1..] == Items(next + 1, ids[1..]);
    }
  }

  lemma EndTold(ans: Answers, c: Control, x: Item)
    requires Tidy(ans, c, x) && Times(c.queue, x) <= 1 && c.ended.None?
    ensures Tidy(ans, End(ans, c), x)
  {
    if c.queue != [] {
      var c0 := c.(armed := false);
      assert Told(ans, c0, x);
      RetryTold(ans, c0, x);
      var d, e := Retry(ans, c0), End(ans, c);
      assert e == d.(queue := [], waiting := {}, lost := d.lost + d.queue, ended := Some(|c.posted|));
    }
  }

  lemma DoTold(ans: Answers, c: Control, op: Op, x: Item)
    requires Tidy(ans, c, x) && Times(c.queue, x) <= 1
    ensures Tidy(ans, Do(ans, c, op), x)
  {
    match op
    case OpPost(id, once) => PostTold(ans, c, id, once, x);
    case OpMulticast(ids, found) => MulticastTold(ans, c, ids, found, x);
    case OpFlush =>
      assert Told(ans, c.(armed := false), x);
      RetryTold(ans, c.(armed := false), x);
    case OpEnd => if c.ended.None? { EndTold(ans, c, x); }
  }

  lemma {:induction false} RunTold(ans: Answers, c: Control, ops: seq<Op>, x: Item)
    requires Well(c) && Surplus(c, x) == 0 && Tidy(ans, c, x)
    ensures Tidy(ans, DoAll(ans, c, ops), x)
    decreases |ops|
  {
    if ops != [] {
      SubmittedOnce(c.posted, x);
      DoTold(ans, c, ops[0], x);
      DoKeeps(ans, c, ops[0], x);
      DoShape(ans, c, ops[0]);
      RunTold(ans, Do(ans, c, ops[0]), ops[1..], x);
    }
  }

  // ------------------------------------------------------------ the end of a life

  /** Nobody will ever hear of this message: it was not delivered, not refused, not given
      back and not reported. */
  predicate Vanished(c: Control, x: Item) {
    x in c.posted && x !in c.delivered && x !in c.refused && x !in c.returned && x !in c.lost
  }

  /**
   When a life is over, a message has vanished exactly if it was posted by the OnQuit hook,
   after the last flush, to be retried, and its target was busy whenever it was sent (which
   may be never, if it stood behind another).
   */
  lemma VanishedIff(ans: Answers, ops: seq<Op>, x: Item)
    requires DoAll(ans, FRESH, ops).ended.Some?
    ensures var c := DoAll(ans, FRESH, ops);
            x in c.posted ==>
              (Vanished(c, x) <==> x.serial >= c.ended.value && x.serial !in c.once && AlwaysBusy(ans, c.asked, x))
  {
    var c := DoAll(ans, FRESH, ops);
    RunTold(ans, FRESH, ops, x);
    Conservation(ans, ops, x);
    if Vanished(c, x) {
      TimesIn(c.delivered, x);
      TimesIn(c.refused, x);
      TimesIn(c.returned, x);
      TimesIn(c.lost, x);
      TimesIn(c.queue, x);
    }
  }

  /** So a life without posts from OnQuit loses nothing silently. */
  lemma NothingVanishesWithoutHook(ans: Answers, ops: seq<Op>, x: Item)
    requires DoAll(ans, FRESH, ops).ended.Some?
    requires DoAll(ans, FRESH, ops).ended.value == |DoAll(ans, FRESH, ops).posted|
    ensures !Vanished(DoAll(ans, FRESH, ops), x)
  {
    VanishedIff(ans, ops, x);
    RunKeeps(ans, FRESH, ops, x);
  }

  /** One post from OnQuit to a busy target is enough. */
  lemma HookPostVanishes(ans: Answers, id: Id)
    requires ans(0) == Busy
    ensures var c := DoAll(ans, FRESH, [OpEnd, OpPost(id, false)]); Vanished(c, Item(0, id))
  {
    var post := OpPost(id, false);
    var c := FRESH.(ended := Some(0));
    var d := Post(ans, c, id, false).0;
    assert Do(ans, FRESH, OpEnd) == c;
    assert d.posted == [Item(0, id)];
    assert [OpEnd, post] == [OpEnd] + [post] && [OpEnd][1..] == [] && [] + [OpEnd] == [OpEnd];
    assert DoAll(ans, FRESH, [OpEnd]) == c;
    DoAllSnoc(ans, FRESH, [OpEnd], post);
  }
}
