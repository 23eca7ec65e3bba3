/**
 What the log of a run tells: why each event is there. Read off the log, the handlers and
 the hook alone, without the machine that writes it.
 */
module RunLoopTells {
  import opened Prelude
  import opened RunLoop

  function Last(log: Log): Option<Event> {
    if log == [] then None else Some(log[|log| - 1])
  }

  /** The last event is the call of a handler that carries this channel. */
  predicate JustInvoked(log: Log, ch: Channel) {
    match Last(log)
    case Some(Invoked(m, _)) => m.Invoke? && m.ch == ch && ch.Channel?
    case _ => false
  }

  /** What the handler that has just been called makes of it. */
  function JustDone(b: Behaviour, log: Log): Outcome
    requires log != [] && log[|log| - 1].Invoked?
  {
    var e := log[|log| - 1];
    b.handler(log, e.m, e.spawning)
  }

  /** What the hook that has just been called makes of it. */
  function JustHooked(b: Behaviour, log: Log): SpawnOutcome
    requires b.hook.Some?
  {
    b.hook.value(log)
  }

  predicate Hooked(b: Behaviour, log: Log) {
    log != [] && log[|log| - 1].SpawnHook? && b.hook.Some?
  }

  /** A message is handed to its handler only if it is allowed there. The first of a context
      comes straight after its creation, or after a hook that agreed. */
  predicate InvokedRightly(b: Behaviour, log: Log, m: Msg, spawning: bool) {
    && Allowed(m, spawning) && !m.Drop?
    && (spawning ==>
          if b.hook.Some? then Hooked(b, log) && JustHooked(b, log).SpawnOk?
          else log != [] && log[|log| - 1].Created?)
    && (!spawning ==> log != [] && !log[|log| - 1].Created? && !JustCleared(log))
  }

  predicate JustCleared(log: Log) {
    log != [] && log[|log| - 1].Cleared?
  }

  /** Why a caller gets the result it gets. */
  predicate AnsweredRightly(b: Behaviour, log: Log, ch: Channel, result: Result) {
    match result
    case Replied(rep, err) =>
      // the handler's own reply and error
      JustInvoked(log, ch) && var o := JustDone(b, log); o.Returns? && o.rep == rep && o.err == err
    case Failed(CallPanicked) =>
      (JustInvoked(log, ch) && JustDone(b, log).Panics?) || (Hooked(b, log) && JustHooked(b, log).SpawnPanics?)
    case Failed(SpawnFailed(code)) =>
      && JustCleared(log) && Hooked(b, log[..|log| - 1])
      && JustHooked(b, log[..|log| - 1]) == SpawnErr(code)
    case Failed(NotAllowed) => true
    case Failed(ActorClosed) => true
  }

  /** Why an event follows a log. */
  predicate Why(b: Behaviour, log: Log, e: Event) {
    match e
    case Created(_) => true
    case SpawnHook(k) => b.hook.Some? && Last(log) == Some(Created(k))
    case Invoked(m, spawning) => InvokedRightly(b, log, m, spawning)
    case Answered(ch, result) => AnsweredRightly(b, log, ch, result)
    case Reclaimed(ch) => JustInvoked(log, ch) && JustDone(b, log).Returns? && JustDone(b, log).rep.Some?
    case Cleared(_) => true
  }

  /** What must follow: a hook, if there is one, straight after a creation; and an answer
      straight after a call. */
  predicate Owing(b: Behaviour, log: Log, e: Event) {
    match Last(log)
    case Some(Created(k)) => b.hook.Some? ==> e == SpawnHook(k)
    case Some(Invoked(m, _)) =>
      HasChannel(m) ==> (e.Answered? && e.ch == m.ch && !e.ch.closed) || (e.Reclaimed? && e.ch == m.ch && e.ch.closed)
    case _ => true
  }

  predicate Explained(b: Behaviour, log: Log)
    decreases |log|
  {
    log == [] ||
    var front, e := log[..|log| - 1], log[|log| - 1];
    Explained(b, front) && Why(b, front, e) && Owing(b, front, e)
  }

  /** Nothing has been started that is not finished. */
  predicate AtRest(b: Behaviour, log: Log) {
    match Last(log)
    case Some(Created(_)) => b.hook.None?
    case Some(Invoked(m, _)) => !HasChannel(m)
    case _ => true
  }

  lemma EmitExplained(b: Behaviour, st: St, e: Event)
    requires Explained(b, st.log) && Why(b, st.log, e) && Owing(b, st.log, e)
    ensures Explained(b, Emit(st, e).log)
  {
    assert (st.log + [e])[..|st.log|] == st.log;
  }

  /** The log says whether there is a context: none has just been cleared if there is one. */
  predicate Told(b: Behaviour, st: St) {
    && Explained(b, st.log) && AtRest(b, st.log)
    && (st.ctx.Some? ==> st.log != [] && !st.log[|st.log| - 1].Cleared? && !st.log[|st.log| - 1].Created?)
  }

  // ------------------------------------------------------------ every attempt is explained

  /** In the middle of a message: its handler, or the hook before it, has just been called. */
  predicate Called(b: Behaviour, st: St, m: Msg) {
    && st.ctx.Some? && Explained(b, st.log) && st.log != []
    && match st.log[|st.log| - 1]
       case Invoked(n, _) => n == m
       case SpawnHook(_) => b.hook.Some?
       case _ => false
  }

  lemma CompleteTold(b: Behaviour, st: St, prevActive: bool)
    requires Told(b, st) && st.ctx.Some?
    ensures Told(b, Complete(st, prevActive))
  {
    var s := Settle(st, prevActive);
    if !s.ctx.value.active {
      EmitExplained(b, s, Cleared(s.ctx.value.serial));
    }
  }

  lemma RecoverTold(b: Behaviour, st: St, prevActive: bool, m: Msg)
    requires Called(b, st, m)
    requires if st.log[|st.log| - 1].Invoked? then JustDone(b, st.log).Panics? else JustHooked(b, st.log).SpawnPanics?
    ensures var a := Recover(b, st, prevActive, m); !a.Crash? ==> Told(b, a.st)
  {
    var s := Settle(st, prevActive);
    if HasChannel(m) && !m.ch.closed {
      EmitExplained(b, s, Answered(m.ch, Failed(CallPanicked)));
    }
  }

  lemma RespondTold(b: Behaviour, st: St, m: Msg, rep: Option<int>, err: Option<int>)
    requires Called(b, st, m) && st.log[|st.log| - 1].Invoked? && m.Invoke?
    requires var o := JustDone(b, st.log); o.Returns? && o.rep == rep && o.err == err
    ensures var a := Respond(st, m, rep, err); a.Done? ==> Told(b, a.st) && a.st.ctx.Some?
  {
    if HasChannel(m) {
      if !m.ch.closed {
        EmitExplained(b, st, Answered(m.ch, Replied(rep, err)));
      } else if rep.Some? {
        EmitExplained(b, st, Reclaimed(m.ch));
      }
    }
  }

  lemma DeliverTold(b: Behaviour, st: St, prevActive: bool, m: Msg, spawning: bool)
    requires st.ctx.Some? && Explained(b, st.log)
    requires if m.Drop? then Told(b, st) || (spawning && st.log != []) else InvokedRightly(b, st.log, m, spawning)
    requires !m.Drop? ==> Owing(b, st.log, Invoked(m, spawning))
    ensures var a := Deliver(b, st, prevActive, m, spawning); !a.Crash? && !m.Drop? ==> Told(b, a.st)
  {
    if !m.Drop? {
      var e := Invoked(m, spawning);
      EmitExplained(b, st, e);
      var s := Emit(st, e);
      var outcome := b.handler(s.log, m, spawning);
      var s1 := SetActive(s, outcome.active);
      assert Called(b, s1, m) && JustDone(b, s1.log) == outcome;
      if m.Timer? {
        CompleteTold(b, s1, prevActive);
      } else if outcome.Panics? {
        RecoverTold(b, s1, prevActive, m);
      } else {
        RespondTold(b, s1, m, outcome.rep, outcome.err);
        var a := Respond(s1, m, outcome.rep, outcome.err);
        if a.Done? {
          CompleteTold(b, a.st, prevActive);
        }
      }
    }
  }

  lemma DropTold(b: Behaviour, st: St, prevActive: bool, spawning: bool)
    requires st.ctx.Some? && Explained(b, st.log) && st.log != [] && !st.log[|st.log| - 1].Cleared?
    requires match st.log[|st.log| - 1]
             case Created(_) => b.hook.None? && !st.ctx.value.active && !prevActive
             case Invoked(n, _) => !HasChannel(n)
             case _ => true
    ensures var a := Deliver(b, st, prevActive, Drop, spawning); a.Done? && Told(b, a.st)
  {
    var s := Settle(st, prevActive);
    if !s.ctx.value.active {
      EmitExplained(b, s, Cleared(s.ctx.value.serial));
    }
  }

  lemma HookErrTold(b: Behaviour, st: St, m: Msg, code: int)
    requires st.ctx.Some? && Explained(b, st.log) && Hooked(b, st.log) && JustHooked(b, st.log) == SpawnErr(code)
    ensures var a := Fail(Clear(st), m, SpawnFailed(code)); !a.Crash? ==> Told(b, a.st)
  {
    EmitExplained(b, st, Cleared(st.ctx.value.serial));
    var s := Clear(st);
    assert s.log[..|s.log| - 1] == st.log;
    if HasChannel(m) && !m.ch.closed {
      EmitExplained(b, s, Answered(m.ch, Failed(SpawnFailed(code))));
    }
  }

  lemma SpawnTold(b: Behaviour, st: St, m: Msg)
    requires Told(b, st) && st.ctx.None? && Allowed(m, true)
    ensures var a := Spawn(b, st, m); !a.Crash? ==> Told(b, a.st)
  {
    EmitExplained(b, st, Created(st.made));
    var s := Create(st);
    if b.hook.None? {
      if m.Drop? { DropTold(b, s, false, true); } else { DeliverTold(b, s, false, m, true); }
    } else {
      EmitExplained(b, s, SpawnHook(st.made));
      var s1 := Emit(s, SpawnHook(st.made));
      match b.hook.value(s1.log)
      case SpawnOk(active) =>
        var s2 := SetActive(s1, active);
        if m.Drop? { DropTold(b, s2, false, true); } else { DeliverTold(b, s2, false, m, true); }
      case SpawnErr(code) => HookErrTold(b, s1, m, code);
      case SpawnPanics(active) => RecoverTold(b, SetActive(s1, active), false, m);
    }
  }

  lemma AttemptTold(b: Behaviour, st: St, m: Msg)
    requires Told(b, st)
    ensures var a := Attempt(b, st, m); !a.Crash? ==> Told(b, a.st)
  {
    if !Allowed(m, st.ctx.None?) {
      if HasChannel(m) && !m.ch.closed {
        EmitExplained(b, st, Answered(m.ch, Failed(NotAllowed)));
      }
    } else if st.ctx.None? {
      SpawnTold(b, st, m);
    } else if m.Drop? {
      DropTold(b, st, st.ctx.value.active, false);
    } else {
      DeliverTold(b, st, st.ctx.value.active, m, false);
    }
  }

  lemma {:induction false} StepsTold(b: Behaviour, c: Config, n: nat)
    requires !c.crashed ==> Told(b, c.st)
    ensures var d := Steps(b, c, n); !d.crashed ==> Told(b, d.st)
    decreases n
  {
    if n != 0 && !Stuck(c) {
      AttemptTold(b, c.st, c.queue[0]);
      StepsTold(b, Next(b, c), n - 1);
    }
  }

  // ------------------------------------------------------------ whole runs

  /** What messages left behind are told, in order. */
  function ClosedAnswers(queue: seq<Msg>): Log {
    if queue == [] then []
    else (if HasChannel(queue[0]) then [Answered(queue[0].ch, Failed(ActorClosed))] else []) + ClosedAnswers(queue[1..])
  }

  lemma {:induction false} FailAllTold(b: Behaviour, st: St, queue: seq<Msg>)
    requires Explained(b, st.log) && AtRest(b, st.log)
    ensures var d := FailAll(st, queue);
            !d.crashed ==> Explained(b, d.st.log) && d.st.log == st.log + ClosedAnswers(queue)
    decreases |queue|
  {
    if queue != [] {
      var m := queue[0];
      var a := Fail(st, m, ActorClosed);
      if a.Done? {
        if HasChannel(m) {
          EmitExplained(b, st, Answered(m.ch, Failed(ActorClosed)));
        }
        FailAllTold(b, a.st, queue[1..]);
        var more := if HasChannel(m) then [Answered(m.ch, Failed(ActorClosed))] else [];
        assert st.log + more == a.st.log;
        assert st.log + (more + ClosedAnswers(queue[1..])) == st.log + more + ClosedAnswers(queue[1..]);
      }
    }
  }

  /**
   Every event of a whole run is there for a reason, and what is begun is finished: a handler
   is called only where it is allowed, the first of a context after a hook that agreed; a
   caller gets its own handler's reply and error, or the panic or the hook's error that kept
   it from one; a hook runs for every context. And whoever is left at the exit is told so,
   in order, after the context has been cleared.
   */
  lemma RunExplained(b: Behaviour, msgs: seq<Msg>, n: nat)
    ensures var c := Steps(b, Config(START, msgs, false), n);
            var d := Leave(c);
            !c.crashed && !d.crashed ==>
              && Explained(b, d.st.log)
              && d.st.log == c.st.log + (if c.st.ctx.Some? then [Cleared(c.st.ctx.value.serial)] else []) + ClosedAnswers(c.queue)
  {
    StepsTold(b, Config(START, msgs, false), n);
    var c := Steps(b, Config(START, msgs, false), n);
    if !c.crashed {
      if c.st.ctx.None? {
        FailAllTold(b, c.st.(idle := c.st.idle - 1), c.queue);
        assert c.st.log + [] == c.st.log;
      } else {
        EmitExplained(b, c.st, Cleared(c.st.ctx.value.serial));
        FailAllTold(b, Clear(c.st), c.queue);
      }
    }
  }

  // ------------------------------------------------------------ one attempt

  /** A message that is not allowed changes nothing, but its caller is told. */
  lemma RefusedChangesNothing(b: Behaviour, st: St, m: Msg)
    requires !Allowed(m, st.ctx.None?) && !Attempt(b, st, m).Crash?
    ensures Attempt(b, st, m) ==
              Done(if HasChannel(m) then st.(log := st.log + [Answered(m.ch, Failed(NotAllowed))]) else st)
  {
  }

  /** With a context, an allowed message is handed to its handler; the handler's flag decides
      whether the context stays, and only its panic has the message replaced. */
  lemma ContextHandles(b: Behaviour, st: St, m: Msg)
    requires st.ctx.Some? && Allowed(m, false) && !m.Drop? && !Attempt(b, st, m).Crash?
    ensures var a := Attempt(b, st, m);
            && |a.st.log| > |st.log| && a.st.log[..|st.log| + 1] == st.log + [Invoked(m, false)]
            && HandledAs(b.handler(a.st.log[..|st.log| + 1], m, false), m, st.ctx.value.serial, a)
  {
  }

  predicate HandledAs(o: Outcome, m: Msg, serial: nat, a: Attempted) {
    && (a.Replaced? <==> m.Invoke? && o.Panics?)
    && (a.Replaced? || o.active ==> a.st.ctx == Some(Ctx(serial, o.active)))
    && (a.Done? && !o.active ==> a.st.ctx == None && a.st.log != [] && a.st.log[|a.st.log| - 1] == Cleared(serial))
  }

  /** Without one, an allowed message has one made; the hook runs, if there is one, and may
      refuse; then the message is handled as by any context. */
  lemma SpawnHandles(b: Behaviour, st: St, m: Msg)
    requires st.ctx.None? && Allowed(m, true) && !m.Drop? && !Attempt(b, st, m).Crash?
    ensures var a := Attempt(b, st, m);
            var made := st.log + [Created(st.made)];
            && a.st.made == st.made + 1
            && if b.hook.None? then
                 && made + [Invoked(m, true)] <= a.st.log
                 && HandledAs(b.handler(made + [Invoked(m, true)], m, true), m, st.made, a)
               else
                 var hooked := made + [SpawnHook(st.made)];
                 && hooked <= a.st.log
                 && match b.hook.value(hooked)
                    case SpawnOk(_) =>
                      && hooked + [Invoked(m, true)] <= a.st.log
                      && HandledAs(b.handler(hooked + [Invoked(m, true)], m, true), m, st.made, a)
                    case SpawnErr(_) => a.Done? && a.st.ctx == None && hooked + [Cleared(st.made)] <= a.st.log
                    case SpawnPanics(active) => a.Replaced? && a.st.ctx == Some(Ctx(st.made, active))
  {
  }

  /** What takes the place of a message that panicked: the recovery request of the registered
      handler, with that handler's permissions and nobody waiting; or the empty placeholder,
      if there is none or it is the recovery request itself that panicked. */
  lemma ReplacedBy(b: Behaviour, st: St, m: Msg)
    requires Attempt(b, st, m).Replaced?
    ensures Attempt(b, st, m).m ==
              match b.recovery
              case Unregistered => Drop
              case Registered(spawns, queries) =>
                if m.Invoke? && m.recovery then Drop else Invoke(0, true, spawns, queries, NoChannel)
  {
  }

  /** The placeholder calls nobody: a context that is active stays as it is, and one that is
      not goes, as after any message. */
  lemma PlaceholderDoesNothing(b: Behaviour, st: St)
    requires st.ctx.Some?
    ensures Attempt(b, st, Drop) ==
              Done(if st.ctx.value.active then st
                   else st.(ctx := None, log := st.log + [Cleared(st.ctx.value.serial)]))
  {
  }

  /** Nothing to hand over. */
  predicate Empty(o: Outcome) {
    o.Panics? || o.rep.None?
  }

  /** An attempt kills the goroutine exactly if the message's caller has closed its channel
      and there is no reply for the cleaner to take: a refusal, a panic, the hook's error, or
      a handler that returns none. */
  lemma CrashesIff(b: Behaviour, st: St, m: Msg)
    ensures Attempt(b, st, m).Crash? <==>
              && HasChannel(m) && m.ch.closed
              && (!Allowed(m, st.ctx.None?) || NoReplyFor(b, st, m))
  {
  }

  /** What an allowed message would get. */
  predicate NoReplyFor(b: Behaviour, st: St, m: Msg) {
    if st.ctx.Some? then Empty(b.handler(st.log + [Invoked(m, false)], m, false)) else
    var made := st.log + [Created(st.made)];
    if b.hook.None? then Empty(b.handler(made + [Invoked(m, true)], m, true)) else
    var hooked := made + [SpawnHook(st.made)];
    match b.hook.value(hooked)
    case SpawnOk(_) => Empty(b.handler(hooked + [Invoked(m, true)], m, true))
    case SpawnErr(_) => true
    case SpawnPanics(_) => true
  }
}
