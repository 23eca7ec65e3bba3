/**
 The run loop as the program runs it: messages are pumped in batches, a panic replaces the
 message in place and the batch is re-entered at that index, `closed` is looked at between
 batches and inside them, and an idle runtime asks the group whether it may quit.

 The class is proved against the one-at-a-time machine of module RunLoop.
 */
module Runner {
  import opened Prelude
  import opened RunLoop
  import RunLoopLaws

  /** What the rest of the program does, by the number of times the loop has looked: how
      many messages have arrived when a pump runs, whether `closed` is set, and whether
      actorQuit finds the runtime closed or held by a sender. */
  datatype Env = Env(arrived: nat -> nat, closed: nat -> bool, busy: nat -> bool)

  /** One look at `closed`: what it found, and where the loop was. */
  datatype Sight = Sight(found: bool, at: Config)

  /** The loop has looked before every batch and between any two, and has handled nothing
      since a look that found `closed`. */
  ghost predicate Watchful(b: Behaviour, start: Config, looked: seq<Sight>, now: Config)
    decreases |looked|
  {
    if looked == [] then now == start
    else
      var last := looked[|looked| - 1];
      && Watchful(b, start, looked[..|looked| - 1], last.at)
      && !LastFound(looked[..|looked| - 1])
      && (if last.found then now == last.at else Batch(b, last.at, now))
  }

  /** Every look found what `closed` was at some time. */
  ghost predicate FromEnv(env: Env, looked: seq<Sight>) {
    forall k | 0 <= k < |looked| :: exists n: nat :: looked[k].found == env.closed(n)
  }

  ghost predicate LastFound(looked: seq<Sight>) {
    looked != [] && looked[|looked| - 1].found
  }

  lemma LookOn(b: Behaviour, start: Config, looked: seq<Sight>, now: Config, found: bool)
    requires Watchful(b, start, looked, now) && !LastFound(looked)
    ensures Watchful(b, start, looked + [Sight(found, now)], now)
  {
    var more := looked + [Sight(found, now)];
    assert more[..|looked|] == looked;
    assert BatchOf(b, now, now, 0);
  }

  lemma BatchOn(b: Behaviour, start: Config, looked: seq<Sight>, now: Config, after: Config)
    requires Watchful(b, start, looked, now) && looked != [] && !LastFound(looked)
    requires looked[|looked| - 1].at == now && Batch(b, now, after)
    ensures Watchful(b, start, looked, after)
  {
  }

  /** Between the start and where the loop is are some number of attempts. */
  lemma {:induction false} Attempts(b: Behaviour, start: Config, looked: seq<Sight>, now: Config) returns (n: nat)
    requires Watchful(b, start, looked, now)
    ensures now == Steps(b, start, n)
    decreases |looked|
  {
    if looked == [] {
      n := 0;
    } else {
      var last := looked[|looked| - 1];
      n := Attempts(b, start, looked[..|looked| - 1], last.at);
      if !last.found {
        var j: nat :| BatchOf(b, last.at, now, j);
        BatchSteps(b, last.at, now, j);
        StepsCompose(b, start, n, j);
        n := n + j;
      }
    }
  }

  /** The first look comes before anything is handled. */
  lemma {:induction false} FirstLook(b: Behaviour, start: Config, looked: seq<Sight>, now: Config)
    requires Watchful(b, start, looked, now) && looked != [] && looked[0].found
    ensures now == start
    decreases |looked|
  {
    if |looked| > 1 {
      FirstLook(b, start, looked[..|looked| - 1], looked[|looked| - 1].at);
      FoundIsLast(b, start, looked, now, 0);
    } else {
      assert looked[..0] == [];
    }
  }

  lemma {:induction false} FoundIsLast(b: Behaviour, start: Config, looked: seq<Sight>, now: Config, k: nat)
    requires Watchful(b, start, looked, now) && k < |looked| && looked[k].found
    ensures k == |looked| - 1
    decreases |looked|
  {
    if k < |looked| - 1 {
      FoundIsLast(b, start, looked[..|looked| - 1], looked[|looked| - 1].at, k);
    }
  }

  /** What the looks say of a runtime that is never closed, and of one that always is. */
  lemma NoneOrAll(b: Behaviour, env: Env, start: Config, looked: seq<Sight>, now: Config)
    requires Watchful(b, start, looked, now) && FromEnv(env, looked) && looked != []
    ensures (forall n: nat :: !env.closed(n)) ==> !LastFound(looked)
    ensures (forall n: nat :: env.closed(n)) ==> now == start
  {
    assert exists n: nat :: looked[0].found == env.closed(n);
    assert exists n: nat :: looked[|looked| - 1].found == env.closed(n);
    if looked[0].found {
      FirstLook(b, start, looked, now);
    }
  }

  class Runner {
    const b: Behaviour
    const env: Env

    var log: Log
    var ctx: Option<Ctx>
    var made: nat
    var idle: int

    var mailbox: seq<Msg> // every message accepted for this runtime and not yet received
    var buf: seq<Msg>
    var looks: nat
    var crashed: bool
    ghost var looked: seq<Sight> // history: the looks at `closed`

    constructor (b: Behaviour, env: Env, msgs: seq<Msg>)
      ensures this.b == b && this.env == env && mailbox == msgs && State() == START && !crashed && buf == [] && looked == []
    {
      this.b, this.env := b, env;
      log, ctx, made, idle := [], None, 0, 1;
      mailbox, buf, looks, crashed, looked := msgs, [], 0, false, [];
    }

    function State(): St
      reads this
    {
      St(log, ctx, made, idle)
    }

    function At(queue: seq<Msg>): Config
      reads this
    {
      Config(State(), queue, crashed)
    }

    method Emit(e: Event)
      modifies this`log
      ensures State() == RunLoop.Emit(old(State()), e)
    {
      log := log + [e];
    }

    method Clear()
      requires ctx.Some?
      modifies this`log, this`ctx
      ensures State() == RunLoop.Clear(old(State()))
    {
      Emit(Cleared(ctx.value.serial));
      ctx := None;
    }

    /** Send an error result, if the message carries a channel. */
    method Fail(m: Msg, error: Error)
      requires !crashed
      modifies this`log, this`crashed
      ensures var a := RunLoop.Fail(old(State()), m, error); State() == a.st && crashed == a.Crash?
    {
      if HasChannel(m) {
        if m.ch.closed {
          crashed := true;
        } else {
          Emit(Answered(m.ch, Failed(error)));
        }
      }
    }

    method Settle(prevActive: bool)
      requires ctx.Some?
      modifies this`idle
      ensures State() == RunLoop.Settle(old(State()), prevActive)
    {
      if prevActive && !ctx.value.active {
        idle := idle + 1;
      } else if !prevActive && ctx.value.active {
        idle := idle - 1;
      }
    }

    method SetActive(active: bool)
      requires ctx.Some?
      modifies this`ctx
      ensures State() == RunLoop.SetActive(old(State()), active)
    {
      ctx := Some(Ctx(ctx.value.serial, active));
    }

    /** The deferred recovery of invokeBatch: settle, fail the caller, replace in place. */
    method Recover(x: nat, prevActive: bool)
      requires !crashed && ctx.Some? && x < |buf|
      modifies this`log, this`idle, this`crashed, this`buf
      ensures var a := RunLoop.Recover(b, old(State()), prevActive, old(buf)[x]);
              && State() == a.st
              && crashed == a.Crash?
              && buf == if a.Replaced? then old(buf)[x := a.m] else old(buf)
    {
      Settle(prevActive);
      Fail(buf[x], CallPanicked);
      if !crashed {
        buf := buf[x := Replacement(b, buf[x])];
      }
    }

    /** Run the message's handler and send its reply; true if the handler panicked. */
    method InvokeMsg(m: Msg, spawning: bool) returns (panicked: bool)
      requires !crashed && ctx.Some?
      modifies this`log, this`ctx, this`crashed
      ensures m.Drop? ==> !panicked && !crashed && State() == old(State())
      ensures !m.Drop? ==>
                var s := RunLoop.Emit(old(State()), Invoked(m, spawning));
                var outcome := b.handler(s.log, m, spawning);
                var s1 := RunLoop.SetActive(s, outcome.active);
                && panicked == (m.Invoke? && outcome.Panics?)
                && (panicked || m.Timer? ==> !crashed && State() == s1)
                && (!panicked && m.Invoke? ==>
                      var a := Respond(s1, m, outcome.rep, outcome.err);
                      State() == a.st && crashed == a.Crash?)
      ensures ctx.Some?
    {
      panicked := false;
      if m.Drop? { return; }
      Emit(Invoked(m, spawning));
      var outcome := b.handler(log, m, spawning);
      SetActive(outcome.active);
      if m.Timer? { return; } // a timer callback recovers its own panic
      if outcome.Panics? { return true; }
      if HasChannel(m) {
        if !m.ch.closed {
          Emit(Answered(m.ch, Replied(outcome.rep, outcome.err)));
        } else if outcome.rep.Some? {
          Emit(Reclaimed(m.ch));
        } else {
          crashed := true;
        }
      }
    }

    /** Invoke the message and settle; false if it panicked and has been replaced. */
    method Deliver(x: nat, prevActive: bool, spawning: bool) returns (done: bool)
      requires !crashed && ctx.Some? && x < |buf|
      modifies this`log, this`ctx, this`idle, this`crashed, this`buf
      ensures var a := RunLoop.Deliver(b, old(State()), prevActive, old(buf)[x], spawning);
              && State() == a.st
              && crashed == a.Crash?
              && done == !a.Replaced?
              && buf == if a.Replaced? then old(buf)[x := a.m] else old(buf)
    {
      var panicked := InvokeMsg(buf[x], spawning);
      if panicked {
        Recover(x, prevActive);
        return crashed;
      }
      if crashed { return true; }
      Settle(prevActive);
      if !ctx.value.active {
        Clear();
      }
      done := true;
    }

    method Create()
      modifies this`log, this`ctx, this`made
      ensures State() == RunLoop.Create(old(State()))
    {
      Emit(Created(made));
      ctx := Some(Ctx(made, false));
      made := made + 1;
    }

    /** Run the OnSpawn hook; an error clears the context and fails the message, a panic
        replaces it. True if the message may go on to its handler. */
    method RunHook(x: nat, hook: Log -> SpawnOutcome) returns (go: bool)
      requires !crashed && ctx.Some? && x < |buf|
      modifies this`log, this`ctx, this`idle, this`crashed, this`buf
      ensures var s := RunLoop.Emit(old(State()), SpawnHook(old(ctx).value.serial));
              match hook(s.log)
              case SpawnOk(active) =>
                go && !crashed && buf == old(buf) && State() == RunLoop.SetActive(s, active)
              case SpawnErr(code) =>
                var a := RunLoop.Fail(RunLoop.Clear(s), old(buf)[x], SpawnFailed(code));
                !go && State() == a.st && crashed == a.Crash? && buf == old(buf)
              case SpawnPanics(active) =>
                var a := RunLoop.Recover(b, RunLoop.SetActive(s, active), false, old(buf)[x]);
                && !go && State() == a.st && crashed == a.Crash?
                && buf == if a.Replaced? then old(buf)[x := a.m] else old(buf)
      ensures go ==> ctx.Some?
    {
      Emit(SpawnHook(ctx.value.serial));
      var outcome := hook(log);
      match outcome
      case SpawnErr(code) =>
        Clear();
        Fail(buf[x], SpawnFailed(code));
        go := false;
      case SpawnPanics(active) =>
        SetActive(active);
        Recover(x, false);
        go := false;
      case SpawnOk(active) =>
        SetActive(active);
        go := true;
    }

    /** Make a context and run its first message. */
    method Spawn(x: nat) returns (done: bool)
      requires !crashed && ctx.None? && x < |buf|
      modifies this`log, this`ctx, this`made, this`idle, this`crashed, this`buf
      ensures var a := RunLoop.Spawn(b, old(State()), old(buf)[x]);
              && State() == a.st
              && crashed == a.Crash?
              && done == !a.Replaced?
              && buf == if a.Replaced? then old(buf)[x := a.m] else old(buf)
    {
      Create();
      if b.hook.Some? {
        ghost var s := RunLoop.Emit(State(), SpawnHook(ctx.value.serial));
        var go := RunHook(x, b.hook.value);
        if !go {
          return crashed || ctx.None?;
        }
      }
      done := Deliver(x, false, true);
    }

    /** One message of the batch: false if it panicked and has been replaced in place. */
    method Handle(x: nat) returns (done: bool)
      requires !crashed && x < |buf|
      modifies this`log, this`ctx, this`made, this`idle, this`crashed, this`buf
      ensures var a := Attempt(b, old(State()), old(buf)[x]);
              && State() == a.st
              && crashed == a.Crash?
              && done == !a.Replaced?
              && buf == if a.Replaced? then old(buf)[x := a.m] else old(buf)
    {
      if !Allowed(buf[x], ctx.None?) {
        Fail(buf[x], NotAllowed);
        return true;
      }
      if ctx.None? {
        done := Spawn(x);
      } else {
        done := Deliver(x, ctx.value.active, false);
      }
    }

    /** Handle messages from x on; stop at the end of the batch, or at the index of a
        message that panicked and now holds its replacement. */
    method InvokeBatch(x: nat) returns (nx: nat, ghost attempts: nat)
      requires !crashed && x < |buf|
      modifies this`log, this`ctx, this`made, this`idle, this`crashed, this`buf
      ensures x <= nx <= |buf| == old(|buf|)
      ensures BatchOf(b, old(At(buf[x..])), At(buf[nx..]), attempts)
      ensures crashed || nx == |buf| || x < nx || Rank(State(), buf[nx]) < old(Rank(State(), buf[x]))
    {
      nx, attempts := x, 0;
      ghost var start := At(buf[x..]);
      while nx < |buf|
        invariant !crashed && x <= nx <= |buf| == old(|buf|)
        invariant nx == x ==> State() == old(State()) && buf == old(buf)
        invariant Smooth(b, start, At(buf[nx..]), attempts)
        decreases |buf| - nx
      {
        ghost var c := At(buf[nx..]);
        ghost var was, st := buf, State();
        var done := Handle(nx);
        RankDecreases(b, st, was[nx]);
        assert buf[nx + 1..] == was[nx + 1..] == c.queue[1..];
        assert !done ==> buf[nx..] == c.queue[0 := buf[nx]];
        SmoothThen(b, start, c, attempts);
        attempts := attempts + 1;
        if !done { return; }
        nx := nx + 1;
        if crashed { return; }
      }
      SmoothBatch(b, start, At(buf[nx..]), attempts);
    }

    /** Move what has arrived from the mailbox to the end of the buffer. */
    method Pump()
      modifies this`mailbox, this`buf, this`looks
      ensures buf + mailbox == old(buf + mailbox)
      ensures |old(buf)| <= |buf|
    {
      var n := env.arrived(looks);
      looks := looks + 1;
      var take := if n < |mailbox| then n else |mailbox|;
      buf, mailbox := buf + mailbox[..take], mailbox[take..];
    }

    /** Look at `closed`; `at` is where the loop is. */
    method Look(ghost at: Config) returns (closed: bool)
      modifies this`looks, this`looked
      ensures closed == env.closed(old(looks))
      ensures looked == old(looked) + [Sight(closed, at)]
      ensures FromEnv(env, old(looked)) ==> FromEnv(env, looked)
    {
      closed := env.closed(looks);
      looks := looks + 1;
      looked := looked + [Sight(closed, at)];
    }

    /** Ask the group whether this runtime may quit: not while it is closed or held by a
        sender, and not while a message is waiting. A message still to come is sent by one who
        holds the runtime then, which none can once it has quit. */
    method Quit() returns (ok: bool)
      requires buf == []
      modifies this`mailbox, this`buf, this`looks
      ensures buf + mailbox == old(buf + mailbox)
      ensures ok ==> buf == [] && mailbox == []
    {
      var busy := env.busy(looks);
      looks := looks + 1;
      if busy { return false; }
      Pump();
      ok := |buf| == 0 && |mailbox| == 0;
    }

    /** One round of the buffer, up to the first look that finds `closed` set. */
    method HandleBuffer(ghost start: Config) returns (stop: bool)
      requires !crashed && Watchful(b, start, looked, At(buf + mailbox)) && !LastFound(looked) && FromEnv(env, looked)
      modifies this`log, this`ctx, this`made, this`idle, this`crashed, this`buf, this`looks, this`looked
      ensures mailbox == old(mailbox)
      ensures !stop && !crashed ==> buf == []
      ensures Watchful(b, start, looked, At(buf + mailbox))
      ensures stop <==> LastFound(looked)
      ensures FromEnv(env, looked) && |old(looked)| <= |looked|
      ensures stop ==> !crashed
    {
      var x := 0;
      stop := false;
      assert buf[0..] == buf;
      while x < |buf|
        invariant !crashed && x <= |buf| && !stop
        invariant Watchful(b, start, looked, At(buf[x..] + mailbox)) && !LastFound(looked)
        invariant FromEnv(env, looked) && |old(looked)| <= |looked|
        decreases |buf| - x, if x < |buf| then Rank(State(), buf[x]) else 0
      {
        ghost var c := At(buf[x..]);
        ghost var wide := At(buf[x..] + mailbox);
        LookOn(b, start, looked, wide, env.closed(looks));
        stop := Look(wide);
        if stop {
          buf := buf[x..];
          return;
        }
        ghost var n;
        x, n := InvokeBatch(x);
        BatchWidens(b, c, At(buf[x..]), mailbox, n);
        BatchOn(b, start, looked, wide, At(buf[x..] + mailbox));
        if crashed {
          buf := buf[x..];
          return;
        }
      }
      assert buf[x..] == [];
      buf := [];
    }

    /** After the loop: give the idle share back or clear the context, then fail whatever
        is left in the buffer and in the mailbox. */
    method Exit()
      requires !crashed
      modifies this`log, this`ctx, this`idle, this`crashed, this`buf, this`mailbox
      ensures var d := Leave(old(At(buf + mailbox))); State() == d.st && crashed == d.crashed
    {
      ghost var c := At(buf + mailbox);
      if ctx.None? {
        idle := idle - 1;
      } else {
        Clear();
      }
      ghost var d := FailAll(State(), buf + mailbox);
      while |buf| + |mailbox| > 0
        invariant !crashed
        invariant FailAll(State(), buf + mailbox) == d
        decreases |buf| + |mailbox|
      {
        ghost var rest := buf + mailbox;
        var m;
        if |buf| > 0 {
          m, buf := buf[0], buf[1..];
          assert rest[1..] == buf + mailbox;
        } else {
          m, mailbox := mailbox[0], mailbox[1..];
          assert rest[1..] == buf + mailbox;
        }
        Fail(m, ActorClosed);
        if crashed { return; }
      }
    }

    /** One round of the main loop; it stops when `closed` is seen, when the mailbox has been
        closed, or when the group lets the runtime quit: but for the first, with nothing left. */
    method Round(ghost start: Config) returns (stop: bool)
      requires !crashed && Watchful(b, start, looked, At(buf + mailbox)) && !LastFound(looked) && FromEnv(env, looked)
      modifies this
      ensures Watchful(b, start, looked, At(buf + mailbox)) && FromEnv(env, looked) && looked != []
      ensures stop && !LastFound(looked) ==> buf + mailbox == []
      ensures LastFound(looked) ==> stop && !crashed
      ensures !stop && !crashed ==> |buf + mailbox| < |old(buf + mailbox)|
    {
      ghost var c := At(buf + mailbox);
      LookOn(b, start, looked, c, env.closed(looks));
      stop := Look(c);
      if stop { return; }
      stop := Fill();
      if stop { return; }
      stop := Work(start);
    }

    /** The rest of a round that has something to handle. */
    method Work(ghost start: Config) returns (stop: bool)
      requires !crashed && buf != [] && Watchful(b, start, looked, At(buf + mailbox)) && !LastFound(looked)
      requires FromEnv(env, looked) && looked != []
      modifies this
      ensures Watchful(b, start, looked, At(buf + mailbox)) && FromEnv(env, looked) && looked != []
      ensures stop && !LastFound(looked) ==> buf + mailbox == []
      ensures LastFound(looked) ==> stop && !crashed
      ensures !stop && !crashed ==> |buf + mailbox| < |old(buf + mailbox)|
    {
      stop := HandleBuffer(start);
      if crashed || stop { return; }
      assert |buf + mailbox| == |mailbox|;
      if ctx.None? {
        stop := Quit();
      }
    }

    /** Pump, waiting for a message if there is none; true if the mailbox has been closed. */
    method Fill() returns (shut: bool)
      modifies this`mailbox, this`buf, this`looks
      ensures buf + mailbox == old(buf + mailbox)
      ensures if shut then buf + mailbox == [] else buf != []
    {
      Pump();
      if |buf| > 0 { return false; }
      if |mailbox| == 0 { return true; }
      assert buf + mailbox == [mailbox[0]] + mailbox[1..];
      buf, mailbox := [mailbox[0]], mailbox[1..];
      Pump();
      shut := false;
    }

    /**
     The whole life of a runtime. Whatever the batch sizes, it is some number of attempts of
     the one-at-a-time machine, up to the first look that finds `closed` and not one further,
     followed by the exit. The loop looks before it begins and again after each batch, and a
     batch ends at the latest with a panic. If no look finds `closed` nothing is left
     unhandled, and the result is that of the plain fold; if `closed` is set from the start
     nothing is handled.
     */
    method Run() returns (ghost attempts: nat, ghost left: seq<Msg>)
      requires State() == START && !crashed && buf == [] && looked == []
      modifies this
      ensures var c := Steps(b, Config(START, old(mailbox), false), attempts);
              && left == c.queue
              && State() == Leave(c).st && crashed == Leave(c).crashed
              && Watchful(b, Config(START, old(mailbox), false), looked, c)
      ensures left != [] ==> LastFound(looked) || Steps(b, Config(START, old(mailbox), false), attempts).crashed
      ensures (forall n: nat :: !env.closed(n)) && !crashed ==>
                left == [] && State() == Leave(HandleAll(b, START, old(mailbox))).st
      ensures (forall n: nat :: env.closed(n)) ==>
                left == old(mailbox) && State() == Leave(Config(START, left, false)).st
      ensures left == [] && !crashed ==>
                State() == Leave(HandleAll(b, START, old(mailbox))).st
      // every caller has been answered exactly once, every context cleared exactly once
      ensures !crashed ==> Read(log) == Audit(true, made, None, Owed(old(mailbox))) && ctx.None?
    {
      ghost var start := Config(START, mailbox, false);
      assert buf + mailbox == mailbox;
      var stop := false;
      while !stop
        invariant !crashed && FromEnv(env, looked)
        invariant Watchful(b, start, looked, At(buf + mailbox))
        invariant stop ==> looked != [] && (LastFound(looked) || buf + mailbox == [])
        invariant !stop ==> !LastFound(looked)
        decreases if stop then 0 else 1 + |buf + mailbox|
      {
        stop := Round(start);
        if crashed {
          attempts := Attempts(b, start, looked, At(buf + mailbox));
          left := buf + mailbox;
          return;
        }
      }
      left := buf + mailbox;
      attempts := Attempts(b, start, looked, At(left));
      FoldInvariant(b, start, attempts);
      RunLoopLaws.ExactlyOnce(b, old(mailbox), attempts);
      NoneOrAll(b, env, start, looked, At(left));
      Exit();
    }
  }
}
