/**
 The concurrent protocol of one group (actor/group.go, actor/actor.go, actor/ref.go):
 who may take a reference to a runtime, when its mailbox is closed, when a runtime may
 quit on its own, and which runtime an id maps to.

 Each action is one atomic operation of the program, or one step inside a locked section;
 between any two actions any other goroutine may act. Two pairs of operations are kept
 apart because the gap between them matters: the test of `closed` and the hold that
 follows it, and the compare-and-swap of requestClose and the unhold that follows it.
 */
module GroupProtocol {
  type Id = nat
  type Rid = nat // runtimes are numbered in the order they are inserted
  type Msg = nat

  datatype Context = Absent | Inactive | Active

  datatype Closer = Nobody | Itself | External

  /** Where the runner of a runtime is. Locked to Releasing are the steps of actorQuit,
      taken under the group's write lock; Done means doneCh is closed. */
  datatype Phase = Working | Locked | Alone | Pumped | Releasing | Leaving | Draining | Done | Removed

  datatype Runtime = Runtime(
    id: Id,
    closedBy: Closer,
    holder: int,
    mailbox: seq<Msg>,
    shut: nat,                // how often the mailbox channel has been closed
    phase: Phase,
    ctx: Context,
    buf: seq<Msg>,
    recovering: bool,         // a panic's replacement sits in front of buf
    accepted: seq<Msg>,       // history: every message ever put in the mailbox
    handled: seq<Msg>,        // history: messages taken by a handler or refused by Allow
    failed: seq<Msg>)         // history: messages failed with ActorClosedError
  {
    predicate Closed() { closedBy != Nobody }

    /** Not yet past doneCh: the interval during which this runtime's goroutine runs. */
    predicate Live() { phase != Done && phase != Removed }

    /** Whether this runtime still counts as idle in the group's counter. */
    predicate Counted() { Live() && phase != Draining && ctx != Active }
  }

  /** Who holds the group's write lock. */
  datatype Writer = Free | Spawner(spawning: Id) | Reuser(found: Rid) | Quitter(quitting: Rid)

  /** Where closeGroup is. */
  datatype Stop = Open | Stopping | Closing(todo: set<Rid>) | Closed

  datatype Group = Group(
    actors: map<Id, Rid>,
    idle: int,
    rts: seq<Runtime>,
    writer: Writer,
    stop: Stop,
    testing: multiset<Rid>,   // read-lock holders that saw closed == false and have yet to hold
    holds: multiset<Rid>,     // references out: callers, timers, ActorRefs
    closing: multiset<Rid>,   // requestClose callers between the swap and the unhold
    leaked: nat,              // history: runners that left with a context present but inactive
    panicked: bool)           // a send has hit a closed mailbox
  {
    predicate Stopped() { stop != Open }

    /** The write lock needs every reader out. */
    predicate Unlocked() { writer.Free? && testing == multiset{} && !stop.Closing? }

    function Count(): int { |actors| - idle }
  }

  const EMPTY: Group :=
    Group(map[], 0, [], Free, Open, multiset{}, multiset{}, multiset{}, 0, false)

  function Newborn(id: Id): Runtime {
    Runtime(id, Nobody, 2, [], 0, Working, Absent, [], false, [], [], [])
  }

  /** What a goroutine does to a runtime it knows: take the reference it has tested for
      (holdActor, or spawnActor finding a predecessor), send or let go as the owner of a
      reference, or close it from outside (closeActor, killActor, closeGroup). */
  datatype TokenAct = HoldAdd | SpawnHold | Send(m: Msg) | Unhold | CloseSwap | CloseUnhold | StopSwap

  /** What the runner of a runtime does, in and after its loop. */
  datatype RunnerAct =
    | Take | Handle(ctx: Context, panicked: bool)
    | SeeClosed | SeeShut
    | QuitLock | QuitHolder | QuitPump | QuitSwap | QuitUnhold
    | Leave | FailOne | Finish | Remove

  datatype Action =
    | HoldTest(id: Id)   // holdActor, holdActors, holdActorForRef, the timer callback
    | SpawnEnter(id: Id) // spawnActor has the write lock
    | SpawnFind          // spawnActor looks the id up: insert, or settle for the one found
    | StopSet | StopLock | StopUnlock // closeGroup
    | Token(rid: Rid, t: TokenAct)
    | Run(runner: Rid, r: RunnerAct)

  // ------------------------------------------------------ what a step needs

  predicate TokenEnabled(g: Group, rid: Rid, t: TokenAct) {
    match t
    case HoldAdd => g.testing[rid] > 0
    case SpawnHold => g.writer == Reuser(rid)
    case Send(_) => g.holds[rid] > 0
    case Unhold => g.holds[rid] > 0
    case CloseSwap => true
    case CloseUnhold => g.closing[rid] > 0
    case StopSwap => g.stop.Closing? && rid in g.stop.todo
  }

  predicate Quiet(rt: Runtime) {
    rt.buf == [] && !rt.recovering && rt.mailbox == []
  }

  predicate RunnerEnabled(rt: Runtime, r: RunnerAct, unlocked: bool) {
    match r
    case Take => rt.phase == Working && rt.mailbox != []
    case Handle(ctx, panicked) =>
      // a context is left inactive by a panic, and stays so while messages are refused
      rt.phase == Working && (rt.recovering || rt.buf != []) && (ctx == Inactive ==> panicked || rt.ctx == Inactive)
    case SeeClosed => rt.phase == Working && rt.Closed()
    case SeeShut => rt.phase == Working && Quiet(rt) && rt.shut > 0
    case QuitLock => rt.phase == Working && rt.buf == [] && !rt.recovering && rt.ctx == Absent && unlocked
    case QuitHolder => rt.phase == Locked
    case QuitPump => rt.phase == Alone
    case QuitSwap => rt.phase == Pumped
    case QuitUnhold => rt.phase == Releasing
    case Leave => rt.phase == Leaving
    case FailOne => rt.phase == Draining && !Quiet(rt)
    case Finish => rt.phase == Draining && Quiet(rt) && rt.shut > 0
    case Remove => rt.phase == Done && unlocked
  }

  predicate Enabled(g: Group, a: Action) {
    match a
    case HoldTest(id) =>
      g.writer.Free? && id in g.actors && g.actors[id] < |g.rts| && !g.rts[g.actors[id]].Closed()
    case SpawnEnter(_) => g.Unlocked()
    case SpawnFind =>
      // a closed predecessor is waited for until its doneCh is closed
      && g.writer.Spawner?
      && (g.writer.spawning in g.actors ==>
            && g.actors[g.writer.spawning] < |g.rts|
            && (g.rts[g.actors[g.writer.spawning]].Closed() ==> !g.rts[g.actors[g.writer.spawning]].Live()))
    case StopSet => g.stop.Open?
    case StopLock => g.stop.Stopping? && g.writer.Free?
    case StopUnlock => g.stop.Closing? && g.stop.todo == {}
    case Token(rid, t) => rid < |g.rts| && TokenEnabled(g, rid, t)
    case Run(rid, r) => rid < |g.rts| && RunnerEnabled(g.rts[rid], r, g.Unlocked())
  }

  // ------------------------------------------------------ what a step does

  /** Dropping the last reference closes the mailbox. */
  function Dropped(rt: Runtime): Runtime {
    rt.(holder := rt.holder - 1, shut := if rt.holder == 1 then rt.shut + 1 else rt.shut)
  }

  function TokenOn(rt: Runtime, t: TokenAct): Runtime {
    match t
    case HoldAdd => rt.(holder := rt.holder + 1)
    case SpawnHold => rt.(holder := rt.holder + 1)
    case Send(m) =>
      if rt.shut > 0 then rt else rt.(mailbox := rt.mailbox + [m], accepted := rt.accepted + [m])
    case Unhold => Dropped(rt)
    case CloseUnhold => Dropped(rt)
    case CloseSwap => if rt.Closed() then rt else rt.(closedBy := External)
    case StopSwap => if rt.Closed() then rt else rt.(closedBy := External)
  }

  function ApplyToken(g: Group, rid: Rid, t: TokenAct): Group
    requires rid < |g.rts| && TokenEnabled(g, rid, t)
  {
    var rt := g.rts[rid];
    var one := multiset{rid};
    g.(rts := g.rts[rid := TokenOn(rt, t)],
       testing := if t.HoldAdd? then g.testing - one else g.testing,
       holds := if t.HoldAdd? || t.SpawnHold? then g.holds + one else if t.Unhold? then g.holds - one else g.holds,
       closing := if (t.CloseSwap? || t.StopSwap?) && !rt.Closed() then g.closing + one
                  else if t.CloseUnhold? then g.closing - one else g.closing,
       writer := if t.SpawnHold? then Free else g.writer,
       stop := if t.StopSwap? then Closing(g.stop.todo - {rid}) else g.stop,
       panicked := g.panicked || (t.Send? && rt.shut > 0))
  }

  function RunnerOn(rt: Runtime, r: RunnerAct): Runtime
    requires RunnerEnabled(rt, r, true)
  {
    match r
    case Take => rt.(buf := rt.buf + [rt.mailbox[0]], mailbox := rt.mailbox[1..])
    case Handle(ctx, panicked) =>
      if rt.recovering then rt.(ctx := ctx, recovering := panicked)
      else rt.(ctx := ctx, recovering := panicked, buf := rt.buf[1..], handled := rt.handled + [rt.buf[0]])
    case SeeClosed => rt.(phase := Leaving)
    case SeeShut => rt.(phase := Leaving)
    case QuitLock => if rt.Closed() then rt else rt.(phase := Locked)
    case QuitHolder => if rt.holder > 1 then rt.(phase := Working) else rt.(phase := Alone)
    case QuitPump =>
      if rt.mailbox != [] then rt.(buf := rt.buf + rt.mailbox, mailbox := [], phase := Working)
      else rt.(phase := Pumped)
    case QuitSwap => if rt.Closed() then rt.(phase := Leaving) else rt.(closedBy := Itself, phase := Releasing)
    case QuitUnhold => Dropped(rt).(phase := Leaving)
    case Leave => rt.(phase := Draining, ctx := Absent)
    case FailOne =>
      if rt.recovering then rt.(recovering := false)
      else if rt.buf != [] then rt.(buf := rt.buf[1..], failed := rt.failed + [rt.buf[0]])
      else rt.(mailbox := rt.mailbox[1..], failed := rt.failed + [rt.mailbox[0]])
    case Finish => rt.(phase := Done)
    case Remove => rt.(phase := Removed)
  }

  /** The steps of actorQuit, between which the write lock is held. */
  predicate InQuit(rt: Runtime) {
    rt.phase == Locked || rt.phase == Alone || rt.phase == Pumped || rt.phase == Releasing
  }

  /** What the runner adds to the group's idle counter: the jump of the active flag after a
      message, and one back when it leaves its loop without a context. */
  function IdleDelta(rt: Runtime, r: RunnerAct): int {
    match r
    case Handle(ctx, _) => (if rt.ctx == Active then 1 else 0) - (if ctx == Active then 1 else 0)
    case Leave => if rt.ctx == Absent then -1 else 0
    case _ => 0
  }

  function ApplyRunner(g: Group, rid: Rid, r: RunnerAct): Group
    requires rid < |g.rts| && RunnerEnabled(g.rts[rid], r, g.Unlocked())
  {
    var rt := g.rts[rid];
    var rt1 := RunnerOn(rt, r);
    g.(rts := g.rts[rid := rt1],
       writer := if InQuit(rt1) then Quitter(rid) else if InQuit(rt) then Free else g.writer,
       idle := g.idle + IdleDelta(rt, r),
       leaked := g.leaked + if r.Leave? && rt.ctx == Inactive then 1 else 0,
       actors := if r.Remove? && rt.id in g.actors && g.actors[rt.id] == rid then g.actors - {rt.id} else g.actors)
  }

  function Insert(g: Group, id: Id): Group {
    var rid := |g.rts|;
    g.(rts := g.rts + [Newborn(id)], actors := g.actors[id := rid], idle := g.idle + 1,
       holds := g.holds + multiset{rid}, writer := Free)
  }

  function Apply(g: Group, a: Action): Group
    requires Enabled(g, a)
  {
    match a
    case HoldTest(id) => g.(testing := g.testing + multiset{g.actors[id]})
    case SpawnEnter(id) => if g.Stopped() then g else g.(writer := Spawner(id))
    case SpawnFind =>
      var id := g.writer.spawning;
      if id in g.actors && !g.rts[g.actors[id]].Closed() then g.(writer := Reuser(g.actors[id]))
      else Insert(g, id)
    case StopSet => g.(stop := Stopping)
    case StopLock => g.(stop := Closing(g.actors.Values))
    case StopUnlock => g.(stop := Stop.Closed)
    case Token(rid, t) => ApplyToken(g, rid, t)
    case Run(rid, r) => ApplyRunner(g, rid, r)
  }

  /** An external close is calm when no one is between the closed-test and the hold on the
      runtime it closes. Every other action is calm. */
  predicate Calm(g: Group, a: Action) {
    a.Token? && (a.t.CloseSwap? || a.t.StopSwap?) ==> !InWindow(g, a.rid)
  }

  predicate InWindow(g: Group, rid: Rid) {
    g.testing[rid] > 0 || g.writer == Reuser(rid)
  }

  /** A run: every action enabled where it is taken. */
  predicate Runs(g: Group, acts: seq<Action>)
    decreases |acts|
  {
    acts == [] || (Enabled(g, acts[0]) && Runs(Apply(g, acts[0]), acts[1..]))
  }

  predicate CalmRun(g: Group, acts: seq<Action>)
    decreases |acts|
  {
    acts == [] || (Enabled(g, acts[0]) && Calm(g, acts[0]) && CalmRun(Apply(g, acts[0]), acts[1..]))
  }

  function After(g: Group, acts: seq<Action>): Group
    requires Runs(g, acts)
    decreases |acts|
  {
    if acts == [] then g else After(Apply(g, acts[0]), acts[1..])
  }
}
