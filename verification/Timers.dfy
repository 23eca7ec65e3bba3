/**
 Timers of one actor runtime (actor/actor_control.go, actor/timer.go,
 actor/actor_context.go): a context's timer table, the clock's timers that may still fire,
 and the timer messages in the mailbox. A runtime has many contexts in its life, each
 starting with an empty table and ids counted from 0 again.

 A handle stands for the `*time.Timer` a call of Timer creates; no two are the same.
 */
module Timers {

  type Handle = nat

  /** What a timer's message carries: which timer it is, and under which id it was kept. */
  datatype Stub = Stub(handle: Handle, id: int)

  /** Quitting: the context's timers have been cleared and its OnQuit hook runs. */
  datatype Life = NoContext | Live | Quitting

  /** What a clock timer that fires finds: holdActor gives nothing, or another runtime of the
      id, or the mailbox has no room; or its message is queued. */
  datatype Arrival = NoRuntime | Respawned | MailFull | Queued

  datatype World = World(
    ctx: Life,
    timers: map<int, Handle>, // the context's table
    made: nat,                // handles created so far
    armed: set<Stub>,         // clock timers that may still fire
    mailbox: seq<Stub>,
    ran: seq<Handle>,         // history: callbacks run, in order
    ended: set<Handle>)       // history: timers stopped, cleared, run, or pushed out of the table

  const START: World := World(NoContext, map[], 0, {}, [], [], {})

  /** `caught` and `lapsed` say which clock timers a Stop still reached. */
  datatype Op =
    | Open
    | Timer(id: int)
    | StopTimer(stopped: int, caught: set<Stub>)
    | Fire(stub: Stub, arrival: Arrival)
    | Take
    | Clear(lapsed: set<Stub>)
    | Gone

  /** The timers in the table. */
  function Handles(w: World): set<Handle> {
    set id | id in w.timers :: w.timers[id]
  }

  predicate Enabled(w: World, op: Op) {
    match op
    case Open => w.ctx == NoContext
    case Timer(_) => w.ctx != NoContext
    case StopTimer(_, _) => w.ctx != NoContext
    case Fire(s, _) => s in w.armed
    case Take => w.mailbox != [] && w.ctx != Quitting
    case Clear(_) => w.ctx == Live
    case Gone => w.ctx == Quitting
  }

  function Apply(w: World, op: Op): World
    requires Enabled(w, op)
  {
    match op
    case Open => w.(ctx := Live)
    case Timer(id) =>
      w.(timers := w.timers[id := w.made], made := w.made + 1, armed := w.armed + {Stub(w.made, id)},
         ended := w.ended + if id in w.timers then {w.timers[id]} else {})
    case StopTimer(id, caught) =>
      if id !in w.timers then w
      else w.(timers := w.timers - {id}, armed := w.armed - caught, ended := w.ended + {w.timers[id]})
    case Fire(s, arrival) =>
      w.(armed := w.armed - {s}, mailbox := if arrival == Queued then w.mailbox + [s] else w.mailbox)
    case Take => Invoke(w.(mailbox := w.mailbox[1..]), w.mailbox[0])
    case Clear(caught) =>
      w.(ctx := Quitting, timers := map[], armed := w.armed - caught, ended := w.ended + Handles(w))
    case Gone => // the table goes with its context; its clock timers do not
      w.(ctx := NoContext, timers := map[], ended := w.ended + Handles(w))
  }

  /** A timer message is refused without a context; with one it runs only if the table has
      this very timer under its id. */
  function Invoke(w: World, s: Stub): World {
    if w.ctx == NoContext || s.id !in w.timers || w.timers[s.id] != s.handle then w
    else w.(timers := w.timers - {s.id}, ran := w.ran + [s.handle], ended := w.ended + {s.handle})
  }

  predicate Runs(w: World, ops: seq<Op>)
    decreases |ops|
  {
    ops == [] || (Enabled(w, ops[0]) && Runs(Apply(w, ops[0]), ops[1..]))
  }

  function After(w: World, ops: seq<Op>): World
    requires Runs(w, ops)
    decreases |ops|
  {
    if ops == [] then w else After(Apply(w, ops[0]), ops[1..])
  }

  // ------------------------------------------------------------ what every step keeps

  /** The table holds exactly the timers that have not ended, each under one id. */
  ghost predicate Table(w: World) {
    && (w.ctx == NoContext ==> w.timers == map[])
    && (forall id | id in w.timers :: w.timers[id] < w.made && w.timers[id] !in w.ended)
    && (forall i, j | i in w.timers && j in w.timers && i != j :: w.timers[i] != w.timers[j])
    && (forall h | h in w.ended :: h < w.made)
  }

  ghost predicate Kept(w: World, s: Stub) {
    s.handle < w.made && (s.handle !in w.ended ==> s.id in w.timers && w.timers[s.id] == s.handle)
  }

  ghost predicate Stubs(w: World) {
    && (forall s | s in w.armed :: Kept(w, s))
    && (forall s | s in w.mailbox :: Kept(w, s))
  }

  ghost predicate History(w: World) {
    && (forall i, j | 0 <= i < j < |w.ran| :: w.ran[i] != w.ran[j])
    && (forall h | h in w.ran :: h in w.ended)
  }

  ghost predicate Inv(w: World) {
    Table(w) && Stubs(w) && History(w)
  }

  lemma KeptOn(w: World, op: Op, s: Stub)
    requires Inv(w) && Enabled(w, op) && Kept(w, s)
    ensures Kept(Apply(w, op), s)
  {
    if op.Take? {
      assert Kept(w, w.mailbox[0]);
    }
  }

  lemma TableKept(w: World, op: Op)
    requires Inv(w) && Enabled(w, op)
    ensures Table(Apply(w, op))
  {
    match op
    case Take => assert Table(w.(mailbox := w.mailbox[1..]));
    case _ =>
  }

  lemma StubsKept(w: World, op: Op)
    requires Inv(w) && Enabled(w, op)
    ensures Stubs(Apply(w, op))
  {
    var v := Apply(w, op);
    forall s | Kept(w, s) ensures Kept(v, s) {
      KeptOn(w, op, s);
    }
    assert op.Timer? ==> Kept(v, Stub(w.made, op.id));
  }

  lemma HistoryKept(w: World, op: Op)
    requires Inv(w) && Enabled(w, op)
    ensures History(Apply(w, op))
  {
    if op.Take? {
      assert Kept(w, w.mailbox[0]);
    }
  }

  lemma StepKeeps(w: World, op: Op)
    requires Inv(w) && Enabled(w, op)
    ensures Inv(Apply(w, op)) && w.ran <= Apply(w, op).ran && w.ended <= Apply(w, op).ended
  {
    TableKept(w, op);
    StubsKept(w, op);
    HistoryKept(w, op);
  }

  lemma {:induction false} RunsKeep(w: World, ops: seq<Op>)
    requires Inv(w) && Runs(w, ops)
    ensures Inv(After(w, ops))
    ensures w.ran <= After(w, ops).ran && w.ended <= After(w, ops).ended
    decreases |ops|
  {
    if ops != [] {
      StepKeeps(w, ops[0]);
      RunsKeep(Apply(w, ops[0]), ops[1..]);
    }
  }

  lemma {:induction false} RunsSplit(w: World, a: seq<Op>, b: seq<Op>)
    requires Runs(w, a + b)
    ensures Runs(w, a) && Runs(After(w, a), b) && After(w, a + b) == After(After(w, a), b)
    decreases |a|
  {
    if a == [] {
      assert a + b == b;
    } else {
      assert (a + b)[1..] == a[1..] + b;
      RunsSplit(Apply(w, a[0]), a[1..], b);
    }
  }

  // ------------------------------------------------------------ the promises

  /** Over any run, no callback runs twice. */
  lemma RunsAtMostOnce(ops: seq<Op>)
    requires Runs(START, ops)
    ensures var w := After(START, ops);
            forall i, j | 0 <= i < j < |w.ran| :: w.ran[i] != w.ran[j]
  {
    RunsKeep(START, ops);
  }

  /** Once a timer has been stopped, cleared with its context or run, its callback does not
      run any more, whatever happens: its message may already be in the mailbox, its id may
      be given to another timer, and a new context may be made. */
  lemma NeverAfterItEnded(before: seq<Op>, after: seq<Op>, h: Handle)
    requires Runs(START, before + after)
    ensures Runs(START, before)
    ensures var w, v := After(START, before), After(START, before + after);
            && w.ran <= v.ran
            && (h in w.ended ==> h !in v.ran[|w.ran|..])
  {
    RunsSplit(START, before, after);
    RunsKeep(START, before);
    var w := After(START, before);
    RunsKeep(w, after);
    if h in w.ended {
      StaysEnded(w, after, h);
    }
  }

  lemma {:induction false} StaysEnded(w: World, ops: seq<Op>, h: Handle)
    requires Inv(w) && Runs(w, ops) && h in w.ended
    ensures w.ran <= After(w, ops).ran && h !in After(w, ops).ran[|w.ran|..]
    decreases |ops|
  {
    if ops != [] {
      StepKeeps(w, ops[0]);
      var v := Apply(w, ops[0]);
      StaysEnded(v, ops[1..], h);
      var u := After(w, ops);
      assert u.ran[|w.ran|..] == v.ran[|w.ran|..] + u.ran[|v.ran|..];
    }
  }

  /** Handling a timer's message runs its callback exactly if the timer has not ended. */
  lemma RunsIffNotEnded(ops: seq<Op>)
    requires Runs(START, ops) && Enabled(After(START, ops), Take)
    ensures var w := After(START, ops);
            var h := w.mailbox[0].handle;
            Apply(w, Take).ran == if h in w.ended then w.ran else w.ran + [h]
  {
    RunsKeep(START, ops);
    var w := After(START, ops);
    assert Kept(w, w.mailbox[0]);
  }

  /** Stopping ends the timer the id stands for, and no other; clearing ends every timer. */
  lemma EndedBy(ops: seq<Op>, id: int, caught: set<Stub>)
    requires Runs(START, ops) && After(START, ops).ctx == Live
    ensures var w := After(START, ops);
            && (forall h | 0 <= h < w.made :: h in Apply(w, StopTimer(id, caught)).ended <==>
                  h in w.ended || (id in w.timers && w.timers[id] == h))
            && (forall h | 0 <= h < w.made :: h in Apply(w, Clear(caught)).ended)
  {
    RunsKeep(START, ops);
    RunsEndAll(START, ops);
  }

  /** What the OnQuit hook starts, after its context's timers have been cleared, never runs,
      not even in a later context of the runtime. */
  lemma LateTimersNeverRun(before: seq<Op>, after: seq<Op>, h: Handle)
    requires Runs(START, before + after)
    ensures Runs(START, before)
    ensures var w, v := After(START, before), After(START, before + after);
            w.ctx == Quitting && h in Handles(w) ==> h !in v.ran
  {
    RunsSplit(START, before, after);
    RunsKeep(START, before);
    var w := After(START, before);
    if w.ctx == Quitting && h in Handles(w) {
      StaysLate(w, after, h);
    }
  }

  lemma {:induction false} StaysLate(w: World, ops: seq<Op>, h: Handle)
    requires Inv(w) && Runs(w, ops) && w.ctx == Quitting && h in Handles(w)
    ensures h !in After(w, ops).ran
    decreases |ops|
  {
    if ops != [] {
      var v := Apply(w, ops[0]);
      StepKeeps(w, ops[0]);
      LateStep(w, ops[0], h);
      if h in v.ended {
        StaysEnded(v, ops[1..], h);
        var u := After(v, ops[1..]);
        assert u.ran == v.ran + u.ran[|v.ran|..];
      } else {
        StaysLate(v, ops[1..], h);
      }
    }
  }

  lemma LateStep(w: World, op: Op, h: Handle)
    requires Inv(w) && Enabled(w, op) && w.ctx == Quitting && h in Handles(w)
    ensures var v := Apply(w, op);
            h !in v.ran && (h in v.ended || (v.ctx == Quitting && h in Handles(v)))
  {
    var v := Apply(w, op);
    var id :| id in w.timers && w.timers[id] == h;
    assert v.ctx == Quitting && h !in v.ended ==> id in v.timers && v.timers[id] == h;
  }

  // ------------------------------------------------------------ messages arrive and are handled

  /** The messages an operation, and a run, put in the mailbox, in order. */
  function SentBy(op: Op): seq<Stub> {
    if op.Fire? && op.arrival == Queued then [op.stub] else []
  }

  function Sent(ops: seq<Op>): seq<Stub>
    decreases |ops|
  {
    if ops == [] then [] else SentBy(ops[0]) + Sent(ops[1..])
  }

  /** How many messages they take out of it. */
  function TakenBy(op: Op): nat {
    if op.Take? then 1 else 0
  }

  function Taken(ops: seq<Op>): nat
    decreases |ops|
  {
    if ops == [] then 0 else TakenBy(ops[0]) + Taken(ops[1..])
  }

  lemma MailStep(w: World, op: Op)
    requires Enabled(w, op)
    ensures TakenBy(op) <= |w.mailbox| && Apply(w, op).mailbox == w.mailbox[TakenBy(op)..] + SentBy(op)
  {
    assert w.mailbox[0..] == w.mailbox;
  }

  lemma QueueSplits(q: seq<Stub>, k: nat, one: seq<Stub>, rest: seq<Stub>, n: nat)
    requires k <= |q| && n <= |q[k..] + one + rest|
    ensures k + n <= |q + (one + rest)| && (q[k..] + one + rest)[n..] == (q + (one + rest))[k + n..]
  {
    assert q[k..] + one + rest == (q + (one + rest))[k..];
  }

  /** The mailbox gives out what was queued, first in first out. */
  lemma {:induction false} FirstInFirstOut(w: World, ops: seq<Op>)
    requires Runs(w, ops)
    ensures Taken(ops) <= |w.mailbox + Sent(ops)|
    ensures After(w, ops).mailbox == (w.mailbox + Sent(ops))[Taken(ops)..]
    decreases |ops|
  {
    if ops == [] {
      assert (w.mailbox + [])[0..] == w.mailbox;
    } else {
      MailStep(w, ops[0]);
      FirstInFirstOut(Apply(w, ops[0]), ops[1..]);
      QueueSplits(w.mailbox, TakenBy(ops[0]), SentBy(ops[0]), Sent(ops[1..]), Taken(ops[1..]));
    }
  }

  /**
   Once a timer's message has been queued behind k others, and k + 1 messages have been taken
   since, the timer has ended; and it has run, unless it had ended otherwise before its message
   was taken.
   */
  lemma QueuedTimerRuns(before: seq<Op>, ops: seq<Op>, s: Stub)
    requires Runs(START, before) && Enabled(After(START, before), Fire(s, Queued))
    requires Runs(Apply(After(START, before), Fire(s, Queued)), ops + [Take])
    requires Taken(ops) == |After(START, before).mailbox|
    ensures var w := Apply(After(START, before), Fire(s, Queued));
            && Runs(w, ops)
            && var v, u := After(w, ops), After(w, ops + [Take]);
            && s.handle in u.ended
            && (s.handle !in v.ended ==> s.handle in u.ran)
  {
    var w0 := After(START, before);
    var w := Apply(w0, Fire(s, Queued));
    RunsKeep(START, before);
    StepKeeps(w0, Fire(s, Queued));
    RunsSplit(w, ops, [Take]);
    RunsKeep(w, ops);
    FirstInFirstOut(w, ops);
    TakesFirst(After(w, ops), s);
  }

  lemma TakesFirst(v: World, s: Stub)
    requires Inv(v) && Enabled(v, Take) && v.mailbox[0] == s && Runs(v, [Take])
    ensures var u := After(v, [Take]);
            s.handle in u.ended && (s.handle !in v.ended ==> s.handle in u.ran)
  {
    assert [Take][1..] == [];
    assert After(v, [Take]) == Apply(v, Take);
    assert Kept(v, s);
  }

  /** A timer that is started is new, armed, in the table under its id and not ended; and so
      it may fire and be queued. */
  lemma StartedTimerIsArmed(before: seq<Op>, id: int)
    requires Runs(START, before) && Enabled(After(START, before), Timer(id))
    ensures var w := After(START, before);
            var s := Stub(w.made, id);
            var v := Apply(w, Timer(id));
            && Enabled(v, Fire(s, Queued)) && s !in w.armed
            && v.timers == w.timers[id := s.handle] && s.handle !in v.ended && s.handle !in Handles(w)
  {
    RunsKeep(START, before);
    var w := After(START, before);
    assert forall s | s in w.armed :: Kept(w, s);
  }

  /** Every timer ever made has ended or is in the table. */
  ghost predicate Accounted(w: World) {
    forall h | 0 <= h < w.made :: h in w.ended || h in Handles(w)
  }

  lemma AccountedKept(w: World, op: Op)
    requires Inv(w) && Accounted(w) && Enabled(w, op)
    ensures Accounted(Apply(w, op))
  {
    forall h | 0 <= h < Apply(w, op).made ensures h in Apply(w, op).ended || h in Handles(Apply(w, op)) {
      if h < w.made && h !in w.ended {
        var id :| id in w.timers && w.timers[id] == h;
        assert id in Apply(w, op).timers || h in Apply(w, op).ended;
      } else if h == w.made {
        assert op.Timer? && Apply(w, op).timers[op.id] == h;
      }
    }
  }

  lemma {:induction false} RunsEndAll(w: World, ops: seq<Op>)
    requires Inv(w) && Accounted(w) && Runs(w, ops)
    ensures Accounted(After(w, ops))
    decreases |ops|
  {
    if ops != [] {
      StepKeeps(w, ops[0]);
      AccountedKept(w, ops[0]);
      RunsEndAll(Apply(w, ops[0]), ops[1..]);
    }
  }
}
