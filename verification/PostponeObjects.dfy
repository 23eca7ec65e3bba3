/**
 The postpone queue as actor/actor_control.go runs it: a queue slice, a shadow set and the
 auxiliary timer, rewritten in place by loops. Every method is proved to do what module
 Postpone says.
 */
module PostponeObjects {
  import opened Prelude
  import opened Postpone

  /** The histories after one answer. */
  ghost function Noted(c0: Control, x: Item, a: Answer): Control {
    var c := c0.(asked := c0.asked + [x]);
    match a
    case Accepted => c.(delivered := c.delivered + [x])
    case Refused => c.(refused := c.refused + [x])
    case Busy => c
  }

  /** The histories once the rest of a list has been sent. */
  ghost function Outcome(ans: Answers, c: Control, tick: nat, items: seq<Item>): Control {
    Note(c.(asked := c.asked + items), Answered(ans, tick, items, Accepted), Answered(ans, tick, items, Refused))
  }

  lemma OutcomeStep(ans: Answers, c: Control, tick: nat, items: seq<Item>, busy: seq<Item>)
    requires items != []
    ensures var a := ans(tick);
            && Outcome(ans, Noted(c, items[0], a), tick + 1, items[1..]) == Outcome(ans, c, tick, items)
            && (if a == Busy then busy + [items[0]] else busy) + Answered(ans, tick + 1, items[1..], Busy)
               == busy + Answered(ans, tick, items, Busy)
  {
    assert items == [items[0]] + items[1..];
  }

  lemma OutcomeNone(ans: Answers, c: Control, tick: nat, busy: seq<Item>)
    ensures Outcome(ans, c, tick, []) == c && busy + Answered(ans, tick, [], Busy) == busy
  {
  }

  /** The histories once a post has been tried. */
  lemma TriedIs(c: Control, past: Control, x: Item, once: bool, v: Verdict)
    requires var p := Mark(Postpone.Submit(c, [x]), x, once);
             past.(queue := c.queue, waiting := c.waiting, armed := c.armed, tick := c.tick)
             == match v
                case Postponed => p
                case Sent => Noted(p, x, Accepted)
                case Failed => Noted(p, x, Refused)
                case WasBusy => Noted(p, x, Busy)
    ensures var d := Sending(Mark(Postpone.Submit(c, [x]), x, once), if v == Postponed then [] else [x]);
            past.(queue := c.queue, waiting := c.waiting, armed := c.armed, tick := d.tick)
            == match v
               case Sent => Note(d, [x], [])
               case Failed => Note(d, [], [x])
               case _ => d
  {
    assert c.asked + [] == c.asked && c.delivered + [] == c.delivered && c.refused + [] == c.refused;
  }

  class ActorControl {
    const ans: Answers

    var postpone: seq<Item>
    var postponeSet: set<Id>
    var armed: bool // postponeTimer is set
    var sent: nat   // how often the target has been asked
    var made: nat   // how many messages have been submitted
    ghost var past: Control // its histories

    constructor (ans: Answers)
      ensures this.ans == ans && Valid() && State() == FRESH
    {
      this.ans := ans;
      postpone, postponeSet, armed, sent, made, past := [], {}, false, 0, 0, FRESH;
    }

    ghost predicate Valid()
      reads this
    {
      made == |past.posted|
    }

    ghost function State(): Control
      reads this
    {
      past.(queue := postpone, waiting := postponeSet, armed := armed, tick := sent)
    }

    /** FPost of one message; the answer decides which history it enters. */
    method Send(x: Item) returns (a: Answer)
      requires Valid()
      modifies this`sent, this`past
      ensures Valid() && a == ans(old(sent)) && sent == old(sent) + 1
      ensures past == Noted(old(past), x, a)
    {
      a := ans(sent);
      sent := sent + 1;
      past := Noted(past, x, a);
    }

    /** Give a new message its number. */
    method Submit(id: Id) returns (x: Item)
      requires Valid()
      modifies this`made, this`past
      ensures Valid() && x == Item(|old(past).posted|, id) && past == Postpone.Submit(old(past), [x])
    {
      x := Item(made, id);
      made := made + 1;
      past := Postpone.Submit(past, [x]);
    }

    method StopPostponeFlush()
      modifies this`armed
      ensures !armed
    {
      armed := false;
    }

    /** Idempotent, and only for a queue that is not empty. */
    method ArmPostponeFlush()
      modifies this`armed
      ensures armed == (old(armed) || postpone != [])
    {
      if armed || postpone == [] { return; }
      armed := true;
    }

    method AppendPostpone(x: Item)
      modifies this`postpone, this`postponeSet, this`armed
      ensures State() == Append(old(State()), [x])
    {
      postpone := postpone + [x];
      postponeSet := postponeSet + {x.target};
      assert Targets([x]) == {x.target};
      ArmPostponeFlush();
    }

    /** Retry the queue in order; what is still busy becomes the queue. */
    method PoseponePost()
      requires Valid()
      modifies this`postpone, this`postponeSet, this`armed, this`sent, this`past
      ensures Valid() && State() == Retry(ans, old(State()))
    {
      if postpone == [] { return; }
      var list := postpone;
      postpone := [];
      var newPostpone: seq<Item>, newSet: set<Id> := [], {};
      var i := 0;
      ghost var t, before := sent, past;
      assert list[0..] == list;
      while i < |list|
        invariant 0 <= i <= |list| && sent == t + i && Valid() && armed == old(armed)
        invariant newPostpone + Answered(ans, sent, list[i..], Busy) == Answered(ans, t, list, Busy)
        invariant newSet == Targets(newPostpone)
        invariant Outcome(ans, past, sent, list[i..]) == Outcome(ans, before, t, list)
      {
        OutcomeStep(ans, past, sent, list[i..], newPostpone);
        assert list[i..][1..] == list[i + 1..];
        var a := Send(list[i]);
        if a == Busy {
          newPostpone := newPostpone + [list[i]];
          newSet := newSet + {list[i].target};
        }
        i := i + 1;
      }
      assert list[i..] == [];
      OutcomeNone(ans, past, sent, newPostpone);
      postpone, postponeSet := newPostpone, newSet;
      if |newPostpone| == 0 {
        StopPostponeFlush();
      }
    }

    /** What the auxiliary timer runs; firing has stopped it. */
    method TimerFires()
      requires Valid() && armed && past.ended.None? // its context is alive
      modifies this`postpone, this`postponeSet, this`armed, this`sent, this`past
      ensures Valid() && State() == Flush(ans, old(State()))
    {
      armed := false;
      PoseponePost();
      ArmPostponeFlush();
    }

    /** The last flush: one more try, then everything left is reported and dropped. */
    method FlushPostpone()
      requires Valid() && past.ended.None?
      modifies this`postpone, this`postponeSet, this`armed, this`sent, this`past
      ensures Valid() && State() == End(ans, old(State()))
    {
      StopPostponeFlush();
      past := past.(ended := Some(|past.posted|));
      if postpone == [] { return; }
      PoseponePost();
      past := past.(lost := past.lost + postpone);
      postpone, postponeSet := [], {};
    }

    method APost(id: Id, once: bool) returns (v: Verdict)
      requires Valid()
      modifies this
      ensures Valid() && (State(), v) == Post(ans, old(State()), id, once)
    {
      PoseponePost();
      var x;
      x, v := Try(id, once);
      if v == Sent || v == Failed { return; }
      if once {
        past := GiveBack(past, x);
      } else {
        AppendPostpone(x);
      }
    }

    /** Submit a message and, unless one is queued for its target, send it. */
    method Try(id: Id, once: bool) returns (x: Item, v: Verdict)
      requires Valid()
      modifies this`sent, this`made, this`past
      ensures Valid() && x == Item(|old(past).posted|, id)
      ensures v == if id in postponeSet then Postponed else VerdictOf(ans(old(sent)))
      ensures var d := Sending(Mark(Postpone.Submit(old(State()), [x]), x, once), if v == Postponed then [] else [x]);
              State() == match v
                         case Sent => Note(d, [x], [])
                         case Failed => Note(d, [], [x])
                         case _ => d
    {
      ghost var c := State();
      x := Submit(id);
      past := Mark(past, x, once);
      if id in postponeSet {
        v := Postponed;
      } else {
        var a := Send(x);
        v := VerdictOf(a);
      }
      TriedIs(c, past, x, once, v);
    }

    // ------------------------------------------------------------ multicast

    /** Number the messages of a multicast. */
    method Number(ids: seq<Id>) returns (items: seq<Item>)
      ensures items == Items(made, ids)
    {
      items := [];
      var i := 0;
      assert ids[0..] == ids;
      while i < |ids|
        invariant 0 <= i <= |ids|
        invariant items + Items(made + i, ids[i..]) == Items(made, ids)
      {
        assert ids[i..][0] == ids[i] && ids[i..][1..] == ids[i + 1..];
        items := items + [Item(made + i, ids[i])];
        i := i + 1;
      }
    }

    /** Those whose target something is queued for, and the others. */
    method SplitPostpone(items: seq<Item>) returns (p: seq<Item>, np: seq<Item>)
      ensures p == Split(items, postponeSet, true) && np == Split(items, postponeSet, false)
    {
      p, np := [], [];
      var i := 0;
      assert items[0..] == items;
      while i < |items|
        invariant 0 <= i <= |items|
        invariant p + Split(items[i..], postponeSet, true) == Split(items, postponeSet, true)
        invariant np + Split(items[i..], postponeSet, false) == Split(items, postponeSet, false)
      {
        assert items[i..][0] == items[i] && items[i..][1..] == items[i + 1..];
        if items[i].target in postponeSet {
          p := p + [items[i]];
        } else {
          np := np + [items[i]];
        }
        i := i + 1;
      }
    }

    /** FMulticast and splitIdErr: send each, collect the busy ones. */
    method SendEach(items: seq<Item>) returns (busy: seq<Item>)
      requires Valid()
      modifies this`sent, this`past
      ensures Valid() && busy == Answered(ans, old(sent), items, Busy)
      ensures State() == Note(Sending(old(State()), items), Answered(ans, old(sent), items, Accepted),
                              Answered(ans, old(sent), items, Refused))
    {
      busy := [];
      var i := 0;
      ghost var t, before := sent, past;
      assert items[0..] == items;
      while i < |items|
        invariant 0 <= i <= |items| && sent == t + i && Valid()
        invariant busy + Answered(ans, sent, items[i..], Busy) == Answered(ans, t, items, Busy)
        invariant Outcome(ans, past, sent, items[i..]) == Outcome(ans, before, t, items)
      {
        OutcomeStep(ans, past, sent, items[i..], busy);
        assert items[i..][1..] == items[i + 1..];
        var a := Send(items[i]);
        if a == Busy {
          busy := busy + [items[i]];
        }
        i := i + 1;
      }
    }

    method AppendAll(items: seq<Item>)
      requires Valid()
      modifies this`postpone, this`postponeSet, this`armed
      ensures Valid() && State() == Append(old(State()), items)
    {
      var i := 0;
      ghost var c := State();
      while i < |items|
        invariant 0 <= i <= |items| && State() == Append(c, items[..i])
      {
        assert items[..i + 1] == items[..i] + [items[i]];
        AppendPostpone(items[i]);
        i := i + 1;
      }
      assert items[..i] == items;
    }

    /** AMulticast. Nothing is submitted if the group cannot be found. */
    method AMulticast(ids: seq<Id>, groupFound: bool) returns (ok: bool)
      requires Valid()
      modifies this
      ensures Valid() && State() == Multicast(ans, old(State()), ids, groupFound)
      ensures !ok ==> !groupFound && State() == Retry(ans, old(State()))
      ensures |past.posted| == |old(past).posted| + if ok then |ids| else 0
    {
      PoseponePost();
      ghost var d := State();
      var items := Number(ids);
      var p, np := SplitPostpone(items);
      if np != [] && !groupFound { return false; }
      made := made + |items|;
      past := Postpone.Submit(past, items);
      ItemsCount(|d.posted|, ids);
      var busy := SendEach(np);
      AppendAll(busy);
      AppendAll(p);
      ok := true;
    }
  }

  lemma {:induction false} ItemsCount(next: nat, ids: seq<Id>)
    ensures |Items(next, ids)| == |ids|
    decreases |ids|
  {
    if ids != [] {
      ItemsCount(next + 1, ids[1..]);
    }
  }
}
