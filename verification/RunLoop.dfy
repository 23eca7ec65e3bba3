/**
 The run loop of one actor runtime (actor/actor.go, actor/invoke.go).

 Handlers, the OnSpawn hook and the scheduler are inputs: a handler's outcome is an
 arbitrary function of everything that happened before it, so a statement for every
 `Behaviour` is a statement about every possible sequence of handler outcomes.

 `Attempt` is one pass of the body of the invokeBatch loop over one message. `Steps` is
 the one-message-at-a-time machine built from it; the class `Runner` is the loop as the
 program runs it, with batches, in-place replacement and early exits.
 */
module RunLoop {
  import opened Prelude

  /** A reply channel. `closed` says whether the caller has closed it by the time it is
      answered; only a cancelled SafeCall closes a channel, so `closed` implies a cleaner. */
  datatype Channel = NoChannel | Channel(caller: nat, closed: bool)

  datatype Msg =
    | Invoke(req: int, recovery: bool, allowSpawn: bool, allowQuery: bool, ch: Channel)
    | Timer(stub: int)
    | Drop

  datatype Error = NotAllowed | CallPanicked | SpawnFailed(code: int) | ActorClosed

  datatype Result = Replied(rep: Option<int>, err: Option<int>) | Failed(error: Error)

  datatype Event =
    | Created(ctx: nat)
    | SpawnHook(ctx: nat)
    | Invoked(m: Msg, spawning: bool)
    | Answered(ch: Channel, result: Result)
    | Reclaimed(ch: Channel)
    | Cleared(ctx: nat)

  type Log = seq<Event>

  datatype Outcome = Returns(rep: Option<int>, err: Option<int>, active: bool) | Panics(active: bool)

  datatype SpawnOutcome = SpawnOk(active: bool) | SpawnErr(code: int) | SpawnPanics(active: bool)

  datatype RecoveryHandler = Unregistered | Registered(allowSpawn: bool, allowQuery: bool)

  datatype Behaviour = Behaviour(
    recovery: RecoveryHandler,
    hook: Option<Log -> SpawnOutcome>,
    handler: (Log, Msg, bool) -> Outcome)

  datatype Ctx = Ctx(serial: nat, active: bool)

  /** What the run loop carries from message to message. `idle` is this runtime's own
      contribution to the group's idle counter; it is 1 when the runtime is spawned. */
  datatype St = St(log: Log, ctx: Option<Ctx>, made: nat, idle: int)

  const START: St := St([], None, 0, 1)

  datatype Attempted = Done(st: St) | Replaced(st: St, m: Msg) | Crash(st: St)

  // ---------------------------------------------------------------- one attempt

  predicate Allowed(m: Msg, spawning: bool) {
    match m
    case Invoke(_, _, allowSpawn, allowQuery, _) => if spawning then allowSpawn else allowQuery
    case Timer(_) => !spawning
    case Drop => true
  }

  predicate HasChannel(m: Msg) {
    m.Invoke? && m.ch.Channel?
  }

  function Emit(st: St, e: Event): St {
    st.(log := st.log + [e])
  }

  function Create(st: St): St {
    Emit(st, Created(st.made)).(ctx := Some(Ctx(st.made, false)), made := st.made + 1)
  }

  function SetActive(st: St, active: bool): St
    requires st.ctx.Some?
  {
    st.(ctx := Some(Ctx(st.ctx.value.serial, active)))
  }

  function Clear(st: St): St
    requires st.ctx.Some?
  {
    Emit(st, Cleared(st.ctx.value.serial)).(ctx := None)
  }

  /** Sending an error on a channel its caller has closed panics outside every recover
      that could still answer it: the goroutine, and with it the process, dies. */
  function Fail(st: St, m: Msg, error: Error): Attempted {
    if !HasChannel(m) then Done(st)
    else if m.ch.closed then Crash(st)
    else Done(Emit(st, Answered(m.ch, Failed(error))))
  }

  /** The idle counter follows the jump of the active flag over one message. */
  function Settle(st: St, prevActive: bool): St
    requires st.ctx.Some?
  {
    if prevActive && !st.ctx.value.active then st.(idle := st.idle + 1)
    else if !prevActive && st.ctx.value.active then st.(idle := st.idle - 1)
    else st
  }

  function Complete(st: St, prevActive: bool): St
    requires st.ctx.Some?
  {
    var s := Settle(st, prevActive);
    if s.ctx.value.active then s else Clear(s)
  }

  function Replacement(b: Behaviour, m: Msg): Msg {
    if b.recovery.Registered? && !(m.Invoke? && m.recovery) then
      Invoke(0, true, b.recovery.allowSpawn, b.recovery.allowQuery, NoChannel)
    else
      Drop
  }

  function Recover(b: Behaviour, st: St, prevActive: bool, m: Msg): Attempted
    requires st.ctx.Some?
  {
    match Fail(Settle(st, prevActive), m, CallPanicked)
    case Done(s) => Replaced(s, Replacement(b, m))
    case other => other
  }

  /** Sending the handler's reply. On a channel the caller has closed the send panics; a
      reply in hand is then given to the cleaner, an empty one leaves nothing to recover. */
  function Respond(st: St, m: Msg, rep: Option<int>, err: Option<int>): Attempted {
    if !HasChannel(m) then Done(st)
    else if !m.ch.closed then Done(Emit(st, Answered(m.ch, Replied(rep, err))))
    else if rep.Some? then Done(Emit(st, Reclaimed(m.ch)))
    else Crash(st)
  }

  function Deliver(b: Behaviour, st: St, prevActive: bool, m: Msg, spawning: bool): Attempted
    requires st.ctx.Some?
  {
    if m.Drop? then Done(Complete(st, prevActive)) else
    var s := Emit(st, Invoked(m, spawning));
    var outcome := b.handler(s.log, m, spawning);
    var s1 := SetActive(s, outcome.active);
    if m.Timer? then Done(Complete(s1, prevActive))
    else if outcome.Panics? then Recover(b, s1, prevActive, m)
    else
      match Respond(s1, m, outcome.rep, outcome.err)
      case Done(s2) => Done(Complete(s2, prevActive))
      case crash => crash
  }

  /** The first message of a context: it is created, the hook runs, then the message. */
  function Spawn(b: Behaviour, st: St, m: Msg): Attempted
    requires st.ctx.None?
  {
    var s := Create(st);
    if b.hook.None? then Deliver(b, s, false, m, true)
    else
      var s1 := Emit(s, SpawnHook(st.made));
      match b.hook.value(s1.log)
      case SpawnOk(active) => Deliver(b, SetActive(s1, active), false, m, true)
      case SpawnErr(code) => Fail(Clear(s1), m, SpawnFailed(code))
      case SpawnPanics(active) => Recover(b, SetActive(s1, active), false, m)
  }

  function Attempt(b: Behaviour, st: St, m: Msg): Attempted {
    if !Allowed(m, st.ctx.None?) then Fail(st, m, NotAllowed)
    else if st.ctx.Some? then Deliver(b, st, st.ctx.value.active, m, false)
    else Spawn(b, st, m)
  }

  /** Why recovery stops: once a context exists a message can be replaced at most twice,
      by the recovery request and then by the placeholder, and it exists after any panic. */
  function Rank(st: St, m: Msg): nat {
    (if st.ctx.None? then 3 else 0) +
    (if m.Invoke? then (if m.recovery then 1 else 2) else 0)
  }

  lemma RankDecreases(b: Behaviour, st: St, m: Msg)
    ensures var a := Attempt(b, st, m);
            a.Replaced? ==> a.st.ctx.Some? && Rank(a.st, a.m) < Rank(st, m)
  {
  }

  // ------------------------------------------------- the one-at-a-time machine

  datatype Config = Config(st: St, queue: seq<Msg>, crashed: bool)

  predicate Stuck(c: Config) {
    c.crashed || c.queue == []
  }

  function Next(b: Behaviour, c: Config): Config
    requires !Stuck(c)
  {
    match Attempt(b, c.st, c.queue[0])
    case Done(s) => Config(s, c.queue[1..], false)
    case Replaced(s, m) => Config(s, c.queue[0 := m], false)
    case Crash(s) => Config(s, c.queue[1..], true)
  }

  function Steps(b: Behaviour, c: Config, n: nat): Config
    decreases n
  {
    if n == 0 || Stuck(c) then c else Steps(b, Next(b, c), n - 1)
  }

  /** Handle one message and every replacement it gives rise to. */
  function HandleOne(b: Behaviour, st: St, m: Msg): (a: Attempted)
    ensures !a.Replaced?
    decreases Rank(st, m)
  {
    match Attempt(b, st, m)
    case Replaced(s, r) => RankDecreases(b, st, m); HandleOne(b, s, r)
    case a => a
  }

  /** The reference: a fold over the messages, one at a time. */
  function HandleAll(b: Behaviour, st: St, queue: seq<Msg>): Config
    decreases |queue|
  {
    if queue == [] then Config(st, [], false) else
    match HandleOne(b, st, queue[0])
    case Done(s) => HandleAll(b, s, queue[1..])
    case a => Config(a.st, queue[1..], true)
  }

  function FailAll(st: St, queue: seq<Msg>): Config
    decreases |queue|
  {
    if queue == [] then Config(st, [], false) else
    match Fail(st, queue[0], ActorClosed)
    case Done(s) => FailAll(s, queue[1..])
    case a => Config(a.st, queue[1..], true)
  }

  /** What run does once it has left its loop. */
  function Leave(c: Config): Config {
    if c.crashed then c
    else if c.st.ctx.None? then FailAll(c.st.(idle := c.st.idle - 1), c.queue)
    else FailAll(Clear(c.st), c.queue)
  }

  lemma {:induction false} StepsCompose(b: Behaviour, c: Config, j: nat, k: nat)
    ensures Steps(b, Steps(b, c, j), k) == Steps(b, c, j + k)
    decreases j
  {
    if j != 0 && !Stuck(c) {
      StepsCompose(b, Next(b, c), j - 1, k);
    }
  }

  function Widen(c: Config, rest: seq<Msg>): Config {
    c.(queue := c.queue + rest)
  }

  lemma WidenNext(b: Behaviour, c: Config, rest: seq<Msg>)
    requires !Stuck(c)
    ensures !Stuck(Widen(c, rest)) && Next(b, Widen(c, rest)) == Widen(Next(b, c), rest)
  {
    assert (c.queue + rest)[0] == c.queue[0];
    assert (c.queue + rest)[1..] == c.queue[1..] + rest;
    var a := Attempt(b, c.st, c.queue[0]);
    if a.Replaced? {
      assert (c.queue + rest)[0 := a.m] == c.queue[0 := a.m] + rest;
    }
  }

  /** Messages waiting behind a batch do not change how the batch is handled. */
  lemma {:induction false} StepsWiden(b: Behaviour, c: Config, rest: seq<Msg>, k: nat) returns (j: nat)
    ensures Steps(b, Widen(c, rest), j) == Widen(Steps(b, c, k), rest)
    decreases k
  {
    if k == 0 || Stuck(c) {
      j := 0;
    } else {
      var i := StepsWiden(b, Next(b, c), rest, k - 1);
      WidenNext(b, c, rest);
      j := i + 1;
    }
  }

  // ------------------------------------------------------------ batches

  /** The next attempt is made and does not panic. */
  predicate Completes(b: Behaviour, c: Config) {
    !Stuck(c) && !Attempt(b, c.st, c.queue[0]).Replaced?
  }

  /** From c to d in n attempts, none of them a panic. */
  ghost predicate Smooth(b: Behaviour, c: Config, d: Config, n: nat)
    decreases n
  {
    if n == 0 then d == c else Completes(b, c) && Smooth(b, Next(b, c), d, n - 1)
  }

  /** From c to d in n attempts, none of them but perhaps the last a panic. */
  ghost predicate BatchOf(b: Behaviour, c: Config, d: Config, n: nat)
    decreases n
  {
    if n == 0 then d == c
    else if n == 1 then !Stuck(c) && d == Next(b, c)
    else Completes(b, c) && BatchOf(b, Next(b, c), d, n - 1)
  }

  ghost predicate Batch(b: Behaviour, c: Config, d: Config) {
    exists n: nat :: BatchOf(b, c, d, n)
  }

  lemma {:induction false} SmoothThen(b: Behaviour, c: Config, d: Config, n: nat)
    requires Smooth(b, c, d, n) && !Stuck(d)
    ensures BatchOf(b, c, Next(b, d), n + 1)
    ensures Completes(b, d) ==> Smooth(b, c, Next(b, d), n + 1)
    decreases n
  {
    if n > 0 {
      SmoothThen(b, Next(b, c), d, n - 1);
    } else {
      assert Smooth(b, Next(b, c), Next(b, c), 0);
    }
  }

  lemma {:induction false} SmoothBatch(b: Behaviour, c: Config, d: Config, n: nat)
    requires Smooth(b, c, d, n)
    ensures BatchOf(b, c, d, n)
    decreases n
  {
    if n > 0 {
      SmoothBatch(b, Next(b, c), d, n - 1);
      assert n == 1 ==> Smooth(b, Next(b, c), d, 0);
    }
  }

  lemma {:induction false} BatchSteps(b: Behaviour, c: Config, d: Config, n: nat)
    requires BatchOf(b, c, d, n)
    ensures d == Steps(b, c, n)
    decreases n
  {
    if n > 1 {
      BatchSteps(b, Next(b, c), d, n - 1);
    } else if n == 1 {
      assert Steps(b, Next(b, c), 0) == Next(b, c);
    }
  }

  lemma {:induction false} BatchWidens(b: Behaviour, c: Config, d: Config, rest: seq<Msg>, n: nat)
    requires BatchOf(b, c, d, n)
    ensures BatchOf(b, Widen(c, rest), Widen(d, rest), n)
    decreases n
  {
    if n > 0 {
      WidenNext(b, c, rest);
      assert (c.queue + rest)[0] == c.queue[0];
      if n > 1 {
        BatchWidens(b, Next(b, c), d, rest, n - 1);
      }
    }
  }

  lemma NextFolds(b: Behaviour, c: Config)
    requires !Stuck(c) && !Next(b, c).crashed
    ensures HandleAll(b, Next(b, c).st, Next(b, c).queue) == HandleAll(b, c.st, c.queue)
  {
    var a := Attempt(b, c.st, c.queue[0]);
    if a.Replaced? {
      assert HandleOne(b, c.st, c.queue[0]) == HandleOne(b, a.st, a.m);
      assert c.queue[0 := a.m][1..] == c.queue[1..];
    } else {
      assert HandleOne(b, c.st, c.queue[0]) == a;
    }
  }

  /** However many attempts have been made, the fold over what is left ends where the fold
      over everything ends. */
  lemma {:induction false} FoldInvariant(b: Behaviour, c: Config, n: nat)
    requires !c.crashed
    ensures var d := Steps(b, c, n);
            !d.crashed ==> HandleAll(b, d.st, d.queue) == HandleAll(b, c.st, c.queue)
    decreases n
  {
    if n != 0 && !Stuck(c) && !Next(b, c).crashed {
      NextFolds(b, c);
      FoldInvariant(b, Next(b, c), n - 1);
    }
  }

  // ------------------------------------------------------------ reading a log

  /** What a log says so far: the contexts made, the one still open, the callers answered
      (with multiplicity), and whether every event was in order. Contexts must be created
      in serial order and cleared before the next is made; an answer goes only to an open
      channel, and a reply is reclaimed only from a channel its caller has closed. */
  datatype Audit = Audit(ok: bool, made: nat, open: Option<nat>, answers: multiset<nat>)

  const BLANK: Audit := Audit(true, 0, None, multiset{})

  function Note(a: Audit, e: Event): Audit {
    match e
    case Created(k) => a.(ok := a.ok && a.open.None? && k == a.made, made := a.made + 1, open := Some(k))
    case Cleared(k) => a.(ok := a.ok && a.open == Some(k), open := None)
    case Answered(ch, _) =>
      if ch.Channel? then a.(ok := a.ok && !ch.closed, answers := a.answers + multiset{ch.caller})
      else a.(ok := false)
    case Reclaimed(ch) =>
      if ch.Channel? then a.(ok := a.ok && ch.closed, answers := a.answers + multiset{ch.caller})
      else a.(ok := false)
    case _ => a
  }

  function Read(log: Log): Audit {
    if log == [] then BLANK else Note(Read(log[..|log| - 1]), log[|log| - 1])
  }

  lemma EmitReads(st: St, e: Event)
    ensures Read(Emit(st, e).log) == Note(Read(st.log), e)
  {
    assert (st.log + [e])[..|st.log|] == st.log;
  }

  /** The callers a queue still owes an answer. */
  function Owed(queue: seq<Msg>): multiset<nat> {
    if queue == [] then multiset{} else OwedBy(queue[0]) + Owed(queue[1..])
  }

  function OwedBy(m: Msg): multiset<nat> {
    if HasChannel(m) then multiset{m.ch.caller} else multiset{}
  }

  /** The log is in order and agrees with the state on the current context. */
  predicate Consistent(st: St) {
    var a := Read(st.log);
    && a.ok
    && a.made == st.made
    && a.open == if st.ctx.Some? then Some(st.ctx.value.serial) else None
  }

  /** The idle counter says whether the context is absent or inactive. */
  predicate IdleExact(st: St) {
    st.idle == if st.ctx.Some? && st.ctx.value.active then 0 else 1
  }

  predicate Sound(st: St) {
    Consistent(st) && IdleExact(st)
  }
}
