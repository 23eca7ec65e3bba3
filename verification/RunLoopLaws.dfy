/** What every run of the loop keeps, whatever the handlers do and wherever it is cut off. */
module RunLoopLaws {
  import opened Prelude
  import opened RunLoop

  /** In the middle of a message: the counter still reflects the flag before it. */
  predicate Mid(st: St, prevActive: bool) {
    st.ctx.Some? && Consistent(st) && st.idle == if prevActive then 0 else 1
  }

  function Answers(st: St): multiset<nat> {
    Read(st.log).answers
  }

  lemma CompleteKeeps(st: St, prevActive: bool)
    requires Mid(st, prevActive)
    ensures Sound(Complete(st, prevActive)) && Answers(Complete(st, prevActive)) == Answers(st)
  {
    EmitReads(Settle(st, prevActive), Cleared(st.ctx.value.serial));
  }

  /** A failure answers the message's caller once, unless the caller has closed the channel. */
  lemma FailAnswers(st: St, m: Msg, error: Error)
    requires Consistent(st)
    ensures var a := Fail(st, m, error);
            && !a.Replaced?
            && (a.Crash? <==> HasChannel(m) && m.ch.closed)
            && a.st == st.(log := a.st.log)
            && (a.Done? ==> Consistent(a.st) && Answers(a.st) == Answers(st) + OwedBy(m))
  {
    if HasChannel(m) {
      EmitReads(st, Answered(m.ch, Failed(error)));
    }
  }

  /** One attempt answers exactly what it owes, and leaves everything sound. */
  predicate Kept(st: St, m: Msg, a: Attempted) {
    && (!a.Crash? ==> Sound(a.st) && Answers(a.st) == Answers(st) + OwedBy(m))
    && (a.Replaced? ==> OwedBy(a.m) == multiset{})
    && (a.Crash? ==> HasChannel(m) && m.ch.closed)
  }

  lemma SettleKeeps(st: St, prevActive: bool)
    requires Mid(st, prevActive)
    ensures var s := Settle(st, prevActive); Sound(s) && s.log == st.log
  {
  }

  lemma RecoverKeeps(b: Behaviour, st: St, prevActive: bool, m: Msg)
    requires Mid(st, prevActive)
    ensures Kept(st, m, Recover(b, st, prevActive, m))
  {
    SettleKeeps(st, prevActive);
    FailAnswers(Settle(st, prevActive), m, CallPanicked);
  }

  lemma RespondAnswers(st: St, prevActive: bool, m: Msg, rep: Option<int>, err: Option<int>)
    requires Mid(st, prevActive)
    ensures var a := Respond(st, m, rep, err);
            && !a.Replaced?
            && (a.Crash? <==> HasChannel(m) && m.ch.closed && rep.None?)
            && (a.Done? ==> Mid(a.st, prevActive) && Answers(a.st) == Answers(st) + OwedBy(m))
  {
    if HasChannel(m) {
      EmitReads(st, if m.ch.closed then Reclaimed(m.ch) else Answered(m.ch, Replied(rep, err)));
    }
  }

  lemma DeliverKeeps(b: Behaviour, st: St, prevActive: bool, m: Msg, spawning: bool)
    requires Mid(st, prevActive)
    ensures Kept(st, m, Deliver(b, st, prevActive, m, spawning))
  {
    if m.Drop? {
      CompleteKeeps(st, prevActive);
    } else {
      EmitReads(st, Invoked(m, spawning));
      var s := Emit(st, Invoked(m, spawning));
      var outcome := b.handler(s.log, m, spawning);
      var s1 := SetActive(s, outcome.active);
      assert Mid(s1, prevActive);
      if m.Timer? {
        CompleteKeeps(s1, prevActive);
      } else if outcome.Panics? {
        RecoverKeeps(b, s1, prevActive, m);
      } else {
        RespondAnswers(s1, prevActive, m, outcome.rep, outcome.err);
        var a := Respond(s1, m, outcome.rep, outcome.err);
        if a.Done? {
          CompleteKeeps(a.st, prevActive);
        }
      }
    }
  }

  lemma CreateKeeps(st: St)
    requires Sound(st) && st.ctx.None?
    ensures Mid(Create(st), false) && Answers(Create(st)) == Answers(st)
  {
    EmitReads(st, Created(st.made));
  }

  lemma HookKeeps(st: St, serial: nat)
    requires Mid(st, false)
    ensures Mid(Emit(st, SpawnHook(serial)), false) && Answers(Emit(st, SpawnHook(serial))) == Answers(st)
  {
    EmitReads(st, SpawnHook(serial));
  }

  lemma ClearKeeps(st: St)
    requires Mid(st, false)
    ensures Sound(Clear(st)) && Answers(Clear(st)) == Answers(st)
  {
    EmitReads(st, Cleared(st.ctx.value.serial));
  }

  lemma SpawnKeeps(b: Behaviour, st: St, m: Msg)
    requires Sound(st) && st.ctx.None?
    ensures Kept(st, m, Spawn(b, st, m))
  {
    CreateKeeps(st);
    var s := Create(st);
    if b.hook.None? {
      DeliverKeeps(b, s, false, m, true);
    } else {
      HookKeeps(s, st.made);
      var s1 := Emit(s, SpawnHook(st.made));
      match b.hook.value(s1.log)
      case SpawnOk(active) => DeliverKeeps(b, SetActive(s1, active), false, m, true);
      case SpawnErr(code) => ClearKeeps(s1); FailAnswers(Clear(s1), m, SpawnFailed(code));
      case SpawnPanics(active) => RecoverKeeps(b, SetActive(s1, active), false, m);
    }
  }

  lemma AttemptKeeps(b: Behaviour, st: St, m: Msg)
    requires Sound(st)
    ensures Kept(st, m, Attempt(b, st, m))
  {
    if !Allowed(m, st.ctx.None?) {
      FailAnswers(st, m, NotAllowed);
    } else if st.ctx.Some? {
      DeliverKeeps(b, st, st.ctx.value.active, m, false);
    } else {
      SpawnKeeps(b, st, m);
    }
  }

  lemma {:induction false} StepsKeep(b: Behaviour, c: Config, n: nat)
    requires !c.crashed ==> Sound(c.st)
    ensures var d := Steps(b, c, n);
            !d.crashed ==> Sound(d.st) && Answers(d.st) + Owed(d.queue) == Answers(c.st) + Owed(c.queue)
    decreases n
  {
    if n != 0 && !Stuck(c) {
      AttemptKeeps(b, c.st, c.queue[0]);
      var a := Attempt(b, c.st, c.queue[0]);
      assert a.Replaced? ==> c.queue[0 := a.m][1..] == c.queue[1..];
      StepsKeep(b, Next(b, c), n - 1);
    }
  }

  predicate ClosedWaits(queue: seq<Msg>) {
    exists m | m in queue :: HasChannel(m) && m.ch.closed
  }

  lemma {:induction false} FailAllAnswers(st: St, queue: seq<Msg>)
    requires Consistent(st)
    ensures var d := FailAll(st, queue);
            && d.st == st.(log := d.st.log)
            && (d.crashed <==> ClosedWaits(queue))
            && (!d.crashed ==> Consistent(d.st) && Answers(d.st) == Answers(st) + Owed(queue))
    decreases |queue|
  {
    if queue != [] {
      FailAnswers(st, queue[0], ActorClosed);
      var a := Fail(st, queue[0], ActorClosed);
      if a.Done? {
        FailAllAnswers(a.st, queue[1..]);
        assert forall m :: m in queue <==> m == queue[0] || m in queue[1..];
      } else {
        assert queue[0] in queue;
      }
    }
  }

  /** What leaving the loop does to a sound state. */
  lemma LeaveKeeps(c: Config)
    requires !c.crashed && Sound(c.st)
    ensures var d := Leave(c);
            && (d.crashed <==> ClosedWaits(c.queue))
            && (!d.crashed ==> Consistent(d.st) && Answers(d.st) == Answers(c.st) + Owed(c.queue))
            && d.st.ctx.None? && d.st.made == c.st.made
            && d.st.idle == if Stranded(c.st) then 1 else 0
  {
    if c.st.ctx.None? {
      FailAllAnswers(c.st.(idle := c.st.idle - 1), c.queue);
    } else {
      EmitReads(c.st, Cleared(c.st.ctx.value.serial));
      FailAllAnswers(Clear(c.st), c.queue);
    }
  }

  /** Where a run that leaves its loop after n attempts ends. */
  function Ended(b: Behaviour, msgs: seq<Msg>, n: nat): Config {
    Leave(Steps(b, Config(START, msgs, false), n))
  }

  /**
   Exactly-once answers. Whatever the handlers do, and wherever the loop is left, a run
   that does not crash answers every caller exactly once (on its channel while that is
   open, through the cleaner once the caller has closed it), and its contexts were created
   and cleared strictly in turn, none left open.
   */
  lemma ExactlyOnce(b: Behaviour, msgs: seq<Msg>, n: nat)
    ensures var d := Ended(b, msgs, n);
            !d.crashed ==> Read(d.st.log) == Audit(true, d.st.made, None, Owed(msgs)) && d.st.ctx.None?
  {
    var start := Config(START, msgs, false);
    StepsKeep(b, start, n);
    if !Steps(b, start, n).crashed {
      LeaveKeeps(Steps(b, start, n));
    }
  }

  lemma CountSnoc(log: Log, e: Event)
    requires log != []
    ensures multiset(log)[e] == multiset(log[..|log| - 1])[e] + if log[|log| - 1] == e then 1 else 0
  {
    assert log == log[..|log| - 1] + [log[|log| - 1]];
  }

  /** In an orderly log every context made is created once, and cleared once unless open. */
  lemma {:induction false} ContextsOnce(log: Log, k: nat)
    requires Read(log).ok
    ensures multiset(log)[Created(k)] == if k < Read(log).made then 1 else 0
    ensures multiset(log)[Cleared(k)] == if k < Read(log).made && Read(log).open != Some(k) then 1 else 0
    ensures Read(log).open.Some? ==> Read(log).open.value < Read(log).made
  {
    if log != [] {
      ContextsOnce(log[..|log| - 1], k);
      CountSnoc(log, Created(k));
      CountSnoc(log, Cleared(k));
    }
  }

  // ------------------------------------------------------------------ crashes

  /** A runtime that leaves its loop with messages it has not handled crashes exactly if one
      of them is a call whose caller has given up and closed its channel. */
  lemma ExitCrashIff(b: Behaviour, msgs: seq<Msg>, n: nat)
    ensures var c := Steps(b, Config(START, msgs, false), n);
            !c.crashed ==> (Leave(c).crashed <==> ClosedWaits(c.queue))
  {
    var start := Config(START, msgs, false);
    StepsKeep(b, start, n);
    if !Steps(b, start, n).crashed {
      LeaveKeeps(Steps(b, start, n));
    }
  }

  /** A run crashes only when it must fail, or has nothing to reply to, a caller that has
      closed its channel; with every channel open it never does. */
  lemma {:induction false} OpenChannelsNeverCrash(b: Behaviour, c: Config, n: nat)
    requires !c.crashed && Sound(c.st) && !ClosedWaits(c.queue)
    ensures var d := Steps(b, c, n); !d.crashed && !ClosedWaits(d.queue)
    decreases n
  {
    if n != 0 && !Stuck(c) {
      AttemptKeeps(b, c.st, c.queue[0]);
      assert c.queue[0] in c.queue;
      var d := Next(b, c);
      forall m | m in d.queue ensures !(HasChannel(m) && m.ch.closed) {
        assert m in c.queue || m == d.queue[0];
      }
      OpenChannelsNeverCrash(b, d, n - 1);
    }
  }

  // ---------------------------------------------------------- idle accounting

  predicate IsReplacement(m: Msg) {
    m.Drop? || (m.Invoke? && m.recovery && m.ch.NoChannel?)
  }

  /** An inactive context between two attempts. */
  predicate Stranded(st: St) {
    st.ctx.Some? && !st.ctx.value.active
  }

  /** A run gives back its share of the idle counter exactly when it does not leave the
      loop with a stranded context. */
  lemma IdleGivenBack(b: Behaviour, msgs: seq<Msg>, n: nat)
    ensures var c := Steps(b, Config(START, msgs, false), n);
            !Leave(c).crashed ==> Leave(c).st.idle == if Stranded(c.st) then 1 else 0
  {
    var start := Config(START, msgs, false);
    StepsKeep(b, start, n);
    if !Steps(b, start, n).crashed {
      LeaveKeeps(Steps(b, start, n));
    }
  }

  /** An attempt that panics with the context inactive. */
  predicate PanicsInactive(b: Behaviour, c: Config) {
    !Stuck(c) && var a := Attempt(b, c.st, c.queue[0]); a.Replaced? && Stranded(a.st)
  }

  /** An attempt at a message that is not allowed: nothing is handled. */
  predicate Refuses(c: Config) {
    !Stuck(c) && !Allowed(c.queue[0], c.st.ctx.None?)
  }

  /** One attempt leaves the context inactive exactly if it panics so, or is refused with a
      context that is inactive already. */
  lemma StrandedNext(b: Behaviour, c: Config)
    requires !Stuck(c) && !Next(b, c).crashed
    ensures Stranded(Next(b, c).st) <==> PanicsInactive(b, c) || (Refuses(c) && Stranded(c.st))
  {
  }

  /** Attempt k panicked with the context inactive, and those up to n were refused. */
  ghost predicate StrandedAt(b: Behaviour, start: Config, k: nat, n: nat) {
    && k < n && PanicsInactive(b, Steps(b, start, k))
    && forall j | k < j < n :: Idles(Steps(b, start, j))
  }

  predicate Idles(c: Config) {
    Stuck(c) || Refuses(c)
  }

  ghost predicate StrandedSince(b: Behaviour, start: Config, n: nat) {
    exists k: nat :: StrandedAt(b, start, k, n)
  }

  lemma SinceNext(b: Behaviour, start: Config, n: nat)
    ensures StrandedSince(b, start, n + 1) <==>
              PanicsInactive(b, Steps(b, start, n)) || (Idles(Steps(b, start, n)) && StrandedSince(b, start, n))
  {
    if PanicsInactive(b, Steps(b, start, n)) {
      assert StrandedAt(b, start, n, n + 1);
    }
    if Idles(Steps(b, start, n)) && StrandedSince(b, start, n) {
      var k: nat :| StrandedAt(b, start, k, n);
      assert StrandedAt(b, start, k, n + 1);
    }
    if StrandedSince(b, start, n + 1) {
      var k: nat :| StrandedAt(b, start, k, n + 1);
      assert k < n ==> StrandedAt(b, start, k, n);
    }
  }

  /** Between messages the context is inactive exactly if there was a panic that left it so,
      and since then nothing but refused messages. */
  lemma {:induction false} StrandedIff(b: Behaviour, msgs: seq<Msg>, n: nat)
    requires !Steps(b, Config(START, msgs, false), n).crashed
    ensures Stranded(Steps(b, Config(START, msgs, false), n).st) <==> StrandedSince(b, Config(START, msgs, false), n)
    decreases n
  {
    if n > 0 {
      var start := Config(START, msgs, false);
      var c := Steps(b, start, n - 1);
      StepsSnoc(b, start, n - 1);
      StrandedIff(b, msgs, n - 1);
      SinceNext(b, start, n - 1);
      if !Stuck(c) {
        StrandedNext(b, c);
      }
    }
  }

  lemma {:induction false} StepsSnoc(b: Behaviour, c: Config, n: nat)
    ensures var d := Steps(b, c, n); Steps(b, c, n + 1) == if Stuck(d) then d else Next(b, d)
    decreases n
  {
    StepsCompose(b, c, n, 1);
  }

  /** Where a recovery handler takes queries, or there is none, the replacement of a panic is
      never refused: the context is inactive only while it waits. */
  lemma {:induction false} StrandedOnlyAfterPanic(b: Behaviour, c: Config, n: nat)
    requires b.recovery.Registered? ==> b.recovery.allowQuery
    requires !c.crashed && (Stranded(c.st) ==> c.queue != [] && IsReplacement(c.queue[0]) && Allowed(c.queue[0], false))
    ensures var d := Steps(b, c, n);
            !d.crashed && Stranded(d.st) ==>
              d.queue != [] && IsReplacement(d.queue[0]) && Allowed(d.queue[0], false)
    decreases n
  {
    if n != 0 && !Stuck(c) && !Next(b, c).crashed {
      StrandedOnlyAfterPanic(b, Next(b, c), n - 1);
    }
  }

  /** With a recovery handler registered for spawning only, the replacement is refused: one
      panicking message leaves the context inactive with nothing waiting, for any number of
      attempts to come, and whenever the runtime is closed then its idle share is lost. */
  lemma SpawnOnlyRecoveryStrands(b: Behaviour, m: Msg, n: nat)
    requires b.recovery == Registered(true, false) && b.hook.None?
    requires m.Invoke? && !m.recovery && m.allowSpawn && m.ch.NoChannel?
    requires forall log :: b.handler(log, m, true) == Panics(false)
    requires n >= 2
    ensures var c := Steps(b, Config(START, [m], false), n);
            !c.crashed && c.queue == [] && Stranded(c.st) && Leave(c).st.idle == 1
  {
    var start := Config(START, [m], false);
    var c1 := Next(b, start);
    var r := Invoke(0, true, true, false, NoChannel);
    assert c1.queue == [r] && Stranded(c1.st) && !c1.crashed;
    var c2 := Next(b, c1);
    assert c2 == Config(c1.st, [], false);
    assert Steps(b, start, n) == Steps(b, c1, n - 1) == Steps(b, c2, n - 2) == c2;
    IdleGivenBack(b, [m], n);
  }
}
