/**
 The postpone queue of an actor (actor/actor_control.go): messages to busy targets are
 kept and retried before every later send, on an auxiliary timer, and once more when the
 actor's life ends.

 The target's answer to the n-th send of a life is an input, so a statement for every
 `Answers` is one about every way the targets can behave.
 */
module Postpone {
  import opened Prelude

  type Id = nat

  /** A message for a target; serials follow the order of submission. */
  datatype Item = Item(serial: nat, target: Id)

  datatype Answer = Accepted | Busy | Refused

  type Answers = nat -> Answer

  datatype Control = Control(
    queue: seq<Item>,
    waiting: set<Id>,          // postponeSet
    armed: bool,               // postponeTimer is set
    tick: nat,                 // sends so far
    posted: seq<Item>,         // history: what has been submitted, in order
    delivered: seq<Item>,
    refused: seq<Item>,        // dropped on an error other than busy
    returned: seq<Item>,       // given back to the caller, who asked for one try
    lost: seq<Item>,           // reported undeliverable by the last flush
    asked: seq<Item>,          // history: what was sent, one item per send
    once: set<nat>,            // history: the serials submitted for one try
    ended: Option<nat>)        // how much had been submitted at the last flush

  const FRESH: Control := Control([], {}, false, 0, [], [], [], [], [], [], {}, None)

  datatype Verdict = Sent | Postponed | WasBusy | Failed

  // ------------------------------------------------------------ sending a list

  /** The items of a list with a given answer, the k-th being sent at tick + k. */
  function Answered(ans: Answers, tick: nat, items: seq<Item>, a: Answer): seq<Item>
    decreases |items|
  {
    if items == [] then [] else
    var rest := Answered(ans, tick + 1, items[1..], a);
    if ans(tick) == a then [items[0]] + rest else rest
  }

  function Targets(items: seq<Item>): set<Id> {
    set i | i in items :: i.target
  }

  /** poseponePost: retry the queue in order; keep what is still busy. */
  function Retry(ans: Answers, c: Control): Control {
    if c.queue == [] then c else
    var busy := Answered(ans, c.tick, c.queue, Busy);
    Note(c, Answered(ans, c.tick, c.queue, Accepted), Answered(ans, c.tick, c.queue, Refused))
      .(queue := busy, waiting := Targets(busy), armed := c.armed && busy != [],
        tick := c.tick + |c.queue|, asked := c.asked + c.queue)
  }

  /** Note what became of items that were sent. */
  function Note(c: Control, accepted: seq<Item>, refused: seq<Item>): Control {
    c.(delivered := c.delivered + accepted, refused := c.refused + refused)
  }

  /** appendPostpone: queue the items and see that the timer runs. */
  function Append(c: Control, items: seq<Item>): Control {
    if items == [] then c
    else c.(queue := c.queue + items, waiting := c.waiting + Targets(items), armed := true)
  }

  /** Note what has been submitted. */
  function Submit(c: Control, items: seq<Item>): Control {
    c.(posted := c.posted + items)
  }

  /** Note what the caller has been given back. */
  function GiveBack(c: Control, item: Item): Control {
    c.(returned := c.returned + [item])
  }

  /** Note what is being sent. */
  function Sending(c: Control, items: seq<Item>): Control {
    c.(tick := c.tick + |items|, asked := c.asked + items)
  }

  /** Note that a message is for one try. */
  function Mark(c: Control, x: Item, once: bool): Control {
    if once then c.(once := c.once + {x.serial}) else c
  }

  function VerdictOf(a: Answer): Verdict {
    match a
    case Accepted => Sent
    case Busy => WasBusy
    case Refused => Failed
  }

  /** Where an item goes: APostOnce gives back what APost would queue. */
  function Place(c: Control, x: Item, v: Verdict, once: bool): Control {
    match v
    case Sent => Note(c, [x], [])
    case Failed => Note(c, [], [x])
    case _ => if once then GiveBack(c, x) else Append(c, [x])
  }

  /** APost and APostOnce: behind a queued message to the same target, or sent at once. */
  function Post(ans: Answers, c0: Control, id: Id, once: bool): (Control, Verdict) {
    var c := Retry(ans, c0);
    var x := Item(|c.posted|, id);
    var v := if id in c.waiting then Postponed else VerdictOf(ans(c.tick));
    (Place(Sending(Mark(Submit(c, [x]), x, once), if v == Postponed then [] else [x]), x, v, once), v)
  }

  /** One item per id, serials in order. */
  function Items(next: nat, ids: seq<Id>): seq<Item>
    decreases |ids|
  {
    if ids == [] then [] else [Item(next, ids[0])] + Items(next + 1, ids[1..])
  }

  /** The items for targets that are, or are not, being waited for. */
  function Split(items: seq<Item>, waiting: set<Id>, behind: bool): seq<Item>
    decreases |items|
  {
    if items == [] then [] else
    var rest := Split(items[1..], waiting, behind);
    if (items[0].target in waiting) == behind then [items[0]] + rest else rest
  }

  /** AMulticast: send to those not waited for, then queue the busy ones and, behind what is
      queued for them, the rest. Nothing is submitted if the group cannot be found. */
  function Multicast(ans: Answers, c0: Control, ids: seq<Id>, groupFound: bool): Control {
    var c := Retry(ans, c0);
    var items := Items(|c.posted|, ids);
    var now := Split(items, c.waiting, false);
    var later := Split(items, c.waiting, true);
    if now != [] && !groupFound then c
    else
      var c1 := Note(Sending(Submit(c, items), now),
                     Answered(ans, c.tick, now, Accepted), Answered(ans, c.tick, now, Refused));
      Append(Append(c1, Answered(ans, c.tick, now, Busy)), later)
  }

  /** The auxiliary timer: it has stopped by firing; flush, and start it again if needed. */
  function Flush(ans: Answers, c: Control): Control {
    var c1 := Retry(ans, c.(armed := false));
    c1.(armed := c1.queue != [])
  }

  /** flushPostpone: the last flush; what it leaves is reported. */
  function End(ans: Answers, c: Control): Control {
    if c.queue == [] then c.(armed := false, ended := Some(|c.posted|)) else
    var c1 := Retry(ans, c.(armed := false, ended := Some(|c.posted|)));
    c1.(queue := [], waiting := {}, lost := c1.lost + c1.queue)
  }

  datatype Op = OpPost(id: Id, once: bool) | OpMulticast(ids: seq<Id>, groupFound: bool) | OpFlush | OpEnd

  /** The last flush comes once; after it the context's timers are gone, and what is still
      posted is posted by its OnQuit hook. */
  function Do(ans: Answers, c: Control, op: Op): Control {
    match op
    case OpPost(id, once) => Post(ans, c, id, once).0
    case OpMulticast(ids, found) => Multicast(ans, c, ids, found)
    case OpFlush => if c.armed && c.ended.None? then Flush(ans, c) else c
    case OpEnd => if c.ended.None? then End(ans, c) else c
  }

  function DoAll(ans: Answers, c: Control, ops: seq<Op>): Control
    decreases |ops|
  {
    if ops == [] then c else DoAll(ans, Do(ans, c, ops[0]), ops[1..])
  }
}
