/** Conservation and order of postponed messages, over every run of a life. */
module PostponeLaws {
  import opened Prelude
  import opened Postpone

  // ------------------------------------------------------------ nothing is lost or doubled

  /** How often an item occurs in a list. */
  function Times(s: seq<Item>, x: Item): nat
    decreases |s|
  {
    if s == [] then 0 else (if s[0] == x then 1 else 0) + Times(s[1..], x)
  }

  lemma {:induction false} TimesAppend(a: seq<Item>, b: seq<Item>, x: Item)
    ensures Times(a + b, x) == Times(a, x) + Times(b, x)
    decreases |a|
  {
    if a == [] {
      assert a + b == b;
    } else {
      TimesAppend(a[1..], b, x);
      assert (a + b)[1..] == a[1..] + b;
    }
  }

  /** In how many places an item is. */
  function Copies(c: Control, x: Item): nat {
    Times(c.queue, x) + Times(c.delivered, x) + Times(c.refused, x) + Times(c.returned, x) + Times(c.lost, x)
  }

  /** In how many more places it is than it was submitted times: never any but 0. */
  function Surplus(c: Control, x: Item): int {
    Copies(c, x) - Times(c.posted, x)
  }

  predicate Shape(c: Control) {
    c.waiting == Targets(c.queue) && (c.armed <==> c.queue != [])
  }

  ghost predicate Numbered(posted: seq<Item>) {
    forall k | 0 <= k < |posted| :: posted[k].serial == k
  }

  lemma {:induction false} AnsweredParts(ans: Answers, tick: nat, items: seq<Item>, x: Item)
    ensures Times(items, x) == Times(Answered(ans, tick, items, Accepted), x)
              + Times(Answered(ans, tick, items, Busy), x) + Times(Answered(ans, tick, items, Refused), x)
    decreases |items|
  {
    if items != [] {
      AnsweredParts(ans, tick + 1, items[1..], x);
      TimesAppend([items[0]], Answered(ans, tick + 1, items[1..], ans(tick)), x);
    }
  }

  lemma {:induction false} SplitParts(items: seq<Item>, waiting: set<Id>, x: Item)
    ensures Times(items, x) == Times(Split(items, waiting, true), x) + Times(Split(items, waiting, false), x)
    decreases |items|
  {
    if items != [] {
      SplitParts(items[1..], waiting, x);
      TimesAppend([items[0]], Split(items[1..], waiting, items[0].target in waiting), x);
    }
  }

  lemma {:induction false} ItemsShape(next: nat, ids: seq<Id>)
    ensures |Items(next, ids)| == |ids|
    ensures forall k | 0 <= k < |ids| :: Items(next, ids)[k] == Item(next + k, ids[k])
    decreases |ids|
  {
    if ids != [] {
      ItemsShape(next + 1, ids[1..]);
    }
  }

  lemma TargetsAppend(a: seq<Item>, b: seq<Item>)
    ensures Targets(a + b) == Targets(a) + Targets(b)
  {
    assert forall i :: i in a + b <==> i in a || i in b;
  }

  lemma NoteKeeps(c: Control, accepted: seq<Item>, refused: seq<Item>, x: Item)
    ensures Copies(Note(c, accepted, refused), x) == Copies(c, x) + Times(accepted, x) + Times(refused, x)
  {
    TimesAppend(c.delivered, accepted, x);
    TimesAppend(c.refused, refused, x);
  }

  lemma AppendKeeps(c: Control, items: seq<Item>, x: Item)
    ensures Copies(Append(c, items), x) == Copies(c, x) + Times(items, x)
  {
    TimesAppend(c.queue, items, x);
  }

  lemma RetryKeeps(ans: Answers, c: Control, x: Item)
    ensures Copies(Retry(ans, c), x) == Copies(c, x)
  {
    if c.queue != [] {
      AnsweredParts(ans, c.tick, c.queue, x);
      NoteKeeps(c, Answered(ans, c.tick, c.queue, Accepted), Answered(ans, c.tick, c.queue, Refused), x);
    }
  }

  lemma RetryShape(ans: Answers, c: Control)
    requires c.waiting == Targets(c.queue) && (c.armed ==> c.queue != [])
    ensures var d := Retry(ans, c);
            d.waiting == Targets(d.queue) && (d.armed <==> c.armed && d.queue != []) && d.posted == c.posted
  {
  }

  lemma AppendShape(c: Control, items: seq<Item>)
    requires Shape(c)
    ensures Shape(Append(c, items))
  {
    TargetsAppend(c.queue, items);
  }

  lemma SubmitOwes(c: Control, items: seq<Item>, x: Item)
    ensures Surplus(Submit(c, items), x) == Surplus(c, x) - Times(items, x)
  {
    TimesAppend(c.posted, items, x);
  }

  lemma PlaceKeeps(c: Control, y: Item, v: Verdict, once: bool, x: Item)
    ensures Copies(Place(c, y, v, once), x) == Copies(c, x) + Times([y], x)
    ensures Place(c, y, v, once).posted == c.posted
  {
    match v
    case Sent => NoteKeeps(c, [y], [], x);
    case Failed => NoteKeeps(c, [], [y], x);
    case _ => if once { TimesAppend(c.returned, [y], x); } else { AppendKeeps(c, [y], x); }
  }

  lemma PostKeeps(ans: Answers, c0: Control, id: Id, once: bool, x: Item)
    ensures Surplus(Post(ans, c0, id, once).0, x) == Surplus(c0, x)
  {
    RetryKeeps(ans, c0, x);
    var c := Retry(ans, c0);
    var y := Item(|c.posted|, id);
    var v := Post(ans, c0, id, once).1;
    SubmitOwes(c, [y], x);
    PlaceKeeps(Sending(Mark(Submit(c, [y]), y, once), if v == Postponed then [] else [y]), y, v, once, x);
  }

  lemma MulticastKeeps(ans: Answers, c0: Control, ids: seq<Id>, groupFound: bool, x: Item)
    ensures Surplus(Multicast(ans, c0, ids, groupFound), x) == Surplus(c0, x)
  {
    RetryKeeps(ans, c0, x);
    var c := Retry(ans, c0);
    var items := Items(|c.posted|, ids);
    var now := Split(items, c.waiting, false);
    if now == [] || groupFound {
      SubmitOwes(c, items, x);
      SplitParts(items, c.waiting, x);
      MulticastParts(ans, Sending(Submit(c, items), now), c.tick, now, Split(items, c.waiting, true), x);
    }
  }

  /** Sending a list places each of its items once. */
  lemma MulticastParts(ans: Answers, c: Control, tick: nat, now: seq<Item>, later: seq<Item>, x: Item)
    ensures var c1 := Note(c, Answered(ans, tick, now, Accepted), Answered(ans, tick, now, Refused));
            var c2 := Append(Append(c1, Answered(ans, tick, now, Busy)), later);
            c2.posted == c.posted && Copies(c2, x) == Copies(c, x) + Times(now, x) + Times(later, x)
  {
    AnsweredParts(ans, tick, now, x);
    var accepted, refused := Answered(ans, tick, now, Accepted), Answered(ans, tick, now, Refused);
    NoteKeeps(c, accepted, refused, x);
    var c1 := Note(c, accepted, refused);
    var busy := Answered(ans, tick, now, Busy);
    AppendKeeps(c1, busy, x);
    AppendKeeps(Append(c1, busy), later, x);
  }

  lemma EndKeeps(ans: Answers, c: Control, x: Item)
    ensures Surplus(End(ans, c), x) == Surplus(c, x)
  {
    var c0 := c.(armed := false, ended := Some(|c.posted|));
    var c1 := Retry(ans, c0);
    RetryKeeps(ans, c0, x);
    TimesAppend(c1.lost, c1.queue, x);
  }

  lemma DoKeeps(ans: Answers, c: Control, op: Op, x: Item)
    ensures Surplus(Do(ans, c, op), x) == Surplus(c, x)
  {
    match op
    case OpPost(id, once) => PostKeeps(ans, c, id, once, x);
    case OpMulticast(ids, found) => MulticastKeeps(ans, c, ids, found, x);
    case OpFlush => RetryKeeps(ans, c.(armed := false), x);
    case OpEnd => EndKeeps(ans, c, x);
  }

  ghost predicate Well(c: Control) {
    Shape(c) && Numbered(c.posted)
  }

  lemma PostShape(ans: Answers, c0: Control, id: Id, once: bool)
    requires Well(c0)
    ensures Well(Post(ans, c0, id, once).0)
  {
    RetryShape(ans, c0);
    var c := Retry(ans, c0);
    var y := Item(|c.posted|, id);
    var v := Post(ans, c0, id, once).1;
    AppendShape(Sending(Mark(Submit(c, [y]), y, once), if v == Postponed then [] else [y]), [y]);
  }

  lemma MulticastShape(ans: Answers, c0: Control, ids: seq<Id>, groupFound: bool)
    requires Well(c0)
    ensures Well(Multicast(ans, c0, ids, groupFound))
  {
    RetryShape(ans, c0);
    var c := Retry(ans, c0);
    var items := Items(|c.posted|, ids);
    var now := Split(items, c.waiting, false);
    if now == [] || groupFound {
      SubmitShape(c, ids);
      var c1 := Note(Sending(Submit(c, items), now),
                     Answered(ans, c.tick, now, Accepted), Answered(ans, c.tick, now, Refused));
      var busy := Answered(ans, c.tick, now, Busy);
      AppendShape(c1, busy);
      AppendShape(Append(c1, busy), Split(items, c.waiting, true));
    }
  }

  lemma SubmitShape(c: Control, ids: seq<Id>)
    requires Well(c)
    ensures Well(Submit(c, Items(|c.posted|, ids)))
  {
    ItemsShape(|c.posted|, ids);
  }

  lemma DoShape(ans: Answers, c: Control, op: Op)
    requires Well(c)
    ensures Well(Do(ans, c, op))
  {
    match op
    case OpPost(id, once) => PostShape(ans, c, id, once);
    case OpMulticast(ids, found) => MulticastShape(ans, c, ids, found);
    case OpFlush => RetryShape(ans, c.(armed := false));
    case OpEnd => RetryShape(ans, c.(armed := false, ended := Some(|c.posted|)));
  }

  lemma {:induction false} RunKeeps(ans: Answers, c: Control, ops: seq<Op>, x: Item)
    requires Well(c)
    ensures Surplus(DoAll(ans, c, ops), x) == Surplus(c, x) && Well(DoAll(ans, c, ops))
    decreases |ops|
  {
    if ops != [] {
      DoKeeps(ans, c, ops[0], x);
      DoShape(ans, c, ops[0]);
      RunKeeps(ans, Do(ans, c, ops[0]), ops[1..], x);
    }
  }

  lemma SubmittedOnce(posted: seq<Item>, x: Item)
    requires Numbered(posted)
    ensures Times(posted, x) == if x in posted then 1 else 0
    decreases |posted|
  {
    if posted != [] {
      var front, last := posted[..|posted| - 1], posted[|posted| - 1];
      SubmittedOnce(front, x);
      assert posted == front + [last];
      TimesAppend(front, [last], x);
    }
  }

  /**
   Over any life, with any answers: every message submitted is in exactly one place, once:
   delivered, still queued, refused, returned to a caller who asked for one try, or reported
   lost by the last flush. The set of waited-for targets is exactly that of the queue, and
   postponeTimer is set exactly while something is queued.
   */
  lemma Conservation(ans: Answers, ops: seq<Op>, x: Item)
    ensures var c := DoAll(ans, FRESH, ops);
            && Copies(c, x) == (if x in c.posted then 1 else 0)
            && c.waiting == Targets(c.queue)
            && (c.armed <==> c.queue != [])
  {
    RunKeeps(ans, FRESH, ops, x);
    SubmittedOnce(DoAll(ans, FRESH, ops).posted, x);
  }

  /** Right after the last flush nothing is queued: each message submitted until then has met
      its fate. What OnQuit posts afterwards is the matter of module PostponeLives. */
  lemma EndSettlesAll(ans: Answers, ops: seq<Op>, x: Item)
    requires DoAll(ans, FRESH, ops).ended.None?
    ensures var c := DoAll(ans, FRESH, ops + [OpEnd]);
            && c.queue == [] && c.waiting == {} && !c.armed
            && Times(c.delivered, x) + Times(c.refused, x) + Times(c.returned, x) + Times(c.lost, x)
               == (if x in c.posted then 1 else 0)
  {
    DoAllSnoc(ans, FRESH, ops, OpEnd);
    Conservation(ans, ops + [OpEnd], x);
  }

  lemma {:induction false} DoAllSnoc(ans: Answers, c: Control, ops: seq<Op>, op: Op)
    ensures DoAll(ans, c, ops + [op]) == Do(ans, DoAll(ans, c, ops), op)
    decreases |ops|
  {
    if ops != [] {
      DoAllSnoc(ans, Do(ans, c, ops[0]), ops[1..], op);
      assert (ops + [op])[1..] == ops[1..] + [op];
    }
  }
}
