/** What every calm run of the group keeps. */
module GroupInvariant {
  import opened GroupProtocol

  /** The manager's own reference, given up by the one requestClose that wins the swap. */
  function Manager(rt: Runtime, closing: nat): int {
    if !rt.Closed() || closing > 0 || rt.phase == Releasing then 1 else 0
  }

  /** The counter is the number of references, and the mailbox is closed, once, at zero. */
  predicate RefCount(rt: Runtime, holds: nat, closing: nat) {
    && rt.holder == Manager(rt, closing) + holds
    && closing <= 1
    && (closing > 0 ==> rt.closedBy == External)
    && (rt.phase == Releasing ==> rt.closedBy == Itself)
    && rt.shut == if rt.holder == 0 then 1 else 0
  }

  /** actorQuit goes past each test only while no one can refute it. */
  predicate QuitOk(rt: Runtime, holds: nat) {
    && (InQuit(rt) ==> rt.buf == [] && !rt.recovering && rt.ctx == Absent)
    && (InQuit(rt) && rt.phase != Locked && rt.closedBy != External ==> holds == 0)
    && (rt.phase == Pumped && rt.closedBy != External ==> rt.mailbox == [])
    && (rt.closedBy == Itself ==>
          holds == 0 && Quiet(rt) && rt.failed == [] && rt.ctx == Absent && rt.phase !in {Working, Locked, Alone, Pumped})
  }

  /** Every accepted message is waiting, handled or failed, in the order it was accepted; and
      a runtime is done only when nothing waits and nothing can come any more. */
  predicate LineOk(rt: Runtime) {
    && rt.accepted == rt.handled + rt.failed + rt.buf + rt.mailbox
    && (rt.phase !in {Draining, Done, Removed} ==> rt.failed == [])
    && (rt.phase in {Done, Removed} ==> Quiet(rt) && rt.shut > 0)
  }

  predicate FateOk(rt: Runtime) {
    && LineOk(rt)
    && (rt.phase in {Leaving, Draining, Done, Removed} ==> rt.Closed())
    && (rt.failed != [] ==> rt.closedBy == External)
  }

  predicate RtOk(rt: Runtime, holds: nat, testing: nat, closing: nat, quitting: bool, reused: bool) {
    && RefCount(rt, holds, closing)
    && (testing > 0 || reused ==> !rt.Closed())
    && (quitting <==> InQuit(rt))
    && QuitOk(rt, holds)
    && FateOk(rt)
  }

  predicate RtOkAt(g: Group, i: Rid)
    requires i < |g.rts|
  {
    RtOk(g.rts[i], g.holds[i], g.testing[i], g.closing[i], g.writer == Quitter(i), g.writer == Reuser(i))
  }

  ghost predicate Each(g: Group) {
    forall i | 0 <= i < |g.rts| :: RtOkAt(g, i)
  }

  ghost predicate Shape(g: Group) {
    && (forall k: Rid :: k >= |g.rts| ==> g.holds[k] == g.testing[k] == g.closing[k] == 0)
    && (g.writer.Reuser? ==> g.writer.found < |g.rts|)
    && (g.writer.Quitter? ==> g.writer.quitting < |g.rts|)
    && (!g.writer.Free? ==> g.testing == multiset{} && !g.stop.Closing?)
  }

  /** A live runtime is the one its id maps to. */
  ghost predicate Mapped(g: Group) {
    && (forall id | id in g.actors ::
          && g.actors[id] < |g.rts|
          && g.rts[g.actors[id]].id == id
          && g.rts[g.actors[id]].phase != Removed)
    && (forall i | 0 <= i < |g.rts| && g.rts[i].Live() :: g.rts[i].id in g.actors && g.actors[g.rts[i].id] == i)
  }

  /** closeGroup misses no one. */
  ghost predicate StopOk(g: Group) {
    && (g.stop.Closing? || g.stop.Closed? ==> !g.writer.Spawner? && !g.writer.Reuser?)
    && (g.stop.Closing? ==>
          forall id | id in g.actors :: g.actors[id] < |g.rts| && (g.rts[g.actors[id]].Closed() || g.actors[id] in g.stop.todo))
    && (g.stop.Closed? ==>
          forall id | id in g.actors :: g.actors[id] < |g.rts| && g.rts[g.actors[id]].Closed())
  }

  function IdleIds(g: Group): set<Id> {
    set id | id in g.actors && g.actors[id] < |g.rts| && g.rts[g.actors[id]].Counted()
  }

  predicate IdleOk(g: Group) {
    g.idle == |IdleIds(g)| + g.leaked
  }

  ghost predicate Inv(g: Group) {
    Shape(g) && Each(g) && !g.panicked && Mapped(g) && StopOk(g) && IdleOk(g)
  }

  // -------------------------------------------------- the runtimes, one action at a time

  /** What an action leaves alone about every runtime but j. */
  ghost predicate OnlyAt(g: Group, h: Group, j: Rid) {
    && |h.rts| == |g.rts|
    && forall i | 0 <= i < |g.rts| && i != j ::
         && h.rts[i] == g.rts[i]
         && h.holds[i] == g.holds[i] && h.testing[i] == g.testing[i] && h.closing[i] == g.closing[i]
         && (h.writer == Quitter(i) <==> g.writer == Quitter(i))
         && (h.writer == Reuser(i) ==> g.writer == Reuser(i))
  }

  lemma EachFrom(g: Group, h: Group, j: Rid)
    requires Each(g) && OnlyAt(g, h, j) && (j < |h.rts| ==> RtOkAt(h, j))
    ensures Each(h)
  {
    forall i | 0 <= i < |h.rts| ensures RtOkAt(h, i) {
      assert i != j ==> RtOkAt(g, i);
    }
  }

  /** A token action on a runtime, seen from that runtime alone. */
  lemma TokenKeepsRt(rt: Runtime, t: TokenAct, holds: nat, testing: nat, closing: nat, q: bool, reused: bool)
    requires RtOk(rt, holds, testing, closing, q, reused)
    requires t.HoldAdd? ==> testing > 0
    requires t.SpawnHold? ==> reused
    requires t.Send? || t.Unhold? ==> holds > 0
    requires t.CloseUnhold? ==> closing > 0
    requires t.CloseSwap? || t.StopSwap? ==> testing == 0 && !reused
    requires t.SpawnHold? ==> !q
    requires t.HoldAdd? ==> !q
    ensures t.Send? ==> rt.shut == 0
    ensures RtOk(TokenOn(rt, t),
              if t.HoldAdd? || t.SpawnHold? then holds + 1 else if t.Unhold? then holds - 1 else holds,
              if t.HoldAdd? then testing - 1 else testing,
              if (t.CloseSwap? || t.StopSwap?) && !rt.Closed() then closing + 1
              else if t.CloseUnhold? then closing - 1 else closing,
              q,
              reused && !t.SpawnHold?)
  {
    if t.Send? {
      assert rt.accepted + [t.m] == rt.handled + rt.failed + rt.buf + (rt.mailbox + [t.m]);
    }
  }

  /** No runner action loses, doubles or reorders a message. */
  lemma RunnerKeepsLine(rt: Runtime, r: RunnerAct)
    requires LineOk(rt) && RunnerEnabled(rt, r, true)
    ensures LineOk(RunnerOn(rt, r))
  {
    match r
    case Take => QueueMoves(rt.handled + rt.failed, rt.buf, rt.mailbox);
    case Handle(_, _) => HandleKeepsLine(rt, r);
    case FailOne => FailKeepsLine(rt);
    case _ =>
  }

  lemma HandleKeepsLine(rt: Runtime, r: RunnerAct)
    requires LineOk(rt) && r.Handle? && RunnerEnabled(rt, r, true)
    ensures LineOk(RunnerOn(rt, r))
  {
    if !rt.recovering { QueueMoves(rt.handled, [], rt.buf); }
  }

  lemma FailKeepsLine(rt: Runtime)
    requires LineOk(rt) && RunnerEnabled(rt, FailOne, true)
    ensures LineOk(RunnerOn(rt, FailOne))
  {
    if !rt.recovering {
      if rt.buf != [] { QueueMoves(rt.handled, rt.failed, rt.buf); }
      else { QueueMoves(rt.handled, rt.failed, rt.mailbox); }
    }
  }

  lemma RunnerKeepsFate(rt: Runtime, r: RunnerAct, holds: nat, closing: nat)
    requires RefCount(rt, holds, closing) && QuitOk(rt, holds) && FateOk(rt)
    requires RunnerEnabled(rt, r, true)
    ensures FateOk(RunnerOn(rt, r))
  {
    RunnerKeepsLine(rt, r);
  }

  lemma QueueMoves(a: seq<Msg>, b: seq<Msg>, q: seq<Msg>)
    requires q != []
    ensures a + b + q == a + (b + [q[0]]) + q[1..]
  {
  }

  /** A runner action, seen from its runtime alone. The tests actorQuit makes stay true
      until it has closed the runtime. */
  lemma RunnerKeepsRt(rt: Runtime, r: RunnerAct, holds: nat, testing: nat, closing: nat, q: bool, reused: bool)
    requires RtOk(rt, holds, testing, closing, q, reused)
    requires RunnerEnabled(rt, r, true)
    requires q ==> testing == 0 && !reused
    ensures RtOk(RunnerOn(rt, r), holds, testing, closing, InQuit(RunnerOn(rt, r)), reused)
  {
    RunnerKeepsFate(rt, r, holds, closing);
    var rt1 := RunnerOn(rt, r);
    assert RefCount(rt1, holds, closing);
    assert QuitOk(rt1, holds);
  }

  /** The runner that holds the lock is the one inside actorQuit. */
  ghost predicate Locks(g: Group) {
    forall i | 0 <= i < |g.rts| :: g.writer == Quitter(i) <==> InQuit(g.rts[i])
  }

  lemma EachLocks(g: Group)
    requires Each(g)
    ensures Locks(g)
  {
    forall i | 0 <= i < |g.rts| ensures g.writer == Quitter(i) <==> InQuit(g.rts[i]) {
      assert RtOkAt(g, i);
    }
  }

  /** Counting one reference in or out changes no other count. */
  lemma OneMore(m: multiset<Rid>, rid: Rid)
    ensures forall i | i != rid :: (m + multiset{rid})[i] == m[i] && (m - multiset{rid})[i] == m[i]
  {
  }

  lemma TokenElsewhere(g: Group, rid: Rid, t: TokenAct)
    requires rid < |g.rts| && TokenEnabled(g, rid, t)
    ensures OnlyAt(g, ApplyToken(g, rid, t), rid)
  {
    OneMore(g.holds, rid);
    OneMore(g.testing, rid);
    OneMore(g.closing, rid);
  }

  lemma TokenShape(g: Group, rid: Rid, t: TokenAct)
    requires Shape(g) && rid < |g.rts| && TokenEnabled(g, rid, t)
    ensures Shape(ApplyToken(g, rid, t))
  {
    OneMore(g.holds, rid);
    OneMore(g.testing, rid);
    OneMore(g.closing, rid);
    var h := ApplyToken(g, rid, t);
    assert g.testing == multiset{} ==> !t.HoldAdd? && h.testing == multiset{};
  }

  lemma RunnerShape(g: Group, rid: Rid, r: RunnerAct)
    requires Shape(g) && Locks(g) && rid < |g.rts| && RunnerEnabled(g.rts[rid], r, g.Unlocked())
    ensures Shape(ApplyRunner(g, rid, r)) && OnlyAt(g, ApplyRunner(g, rid, r), rid)
    ensures ApplyRunner(g, rid, r).writer == Quitter(rid) <==> InQuit(RunnerOn(g.rts[rid], r))
    ensures ApplyRunner(g, rid, r).writer == Reuser(rid) <==> g.writer == Reuser(rid)
  {
    assert InQuit(g.rts[rid]) <==> g.writer == Quitter(rid);
  }

  lemma TokenKeeps(g: Group, rid: Rid, t: TokenAct)
    requires Shape(g) && Each(g) && rid < |g.rts| && TokenEnabled(g, rid, t) && Calm(g, Token(rid, t))
    ensures Each(ApplyToken(g, rid, t)) && Shape(ApplyToken(g, rid, t))
    ensures ApplyToken(g, rid, t).panicked == g.panicked
  {
    TokenShape(g, rid, t);
    TokenElsewhere(g, rid, t);
    TokenAt(g, rid, t);
    EachFrom(g, ApplyToken(g, rid, t), rid);
  }

  lemma TokenAt(g: Group, rid: Rid, t: TokenAct)
    requires Shape(g) && rid < |g.rts| && RtOkAt(g, rid) && TokenEnabled(g, rid, t) && Calm(g, Token(rid, t))
    ensures RtOkAt(ApplyToken(g, rid, t), rid) && (t.Send? ==> g.rts[rid].shut == 0)
  {
    TokenKeepsRt(g.rts[rid], t, g.holds[rid], g.testing[rid], g.closing[rid],
      g.writer == Quitter(rid), g.writer == Reuser(rid));
  }

  lemma RunnerKeeps(g: Group, rid: Rid, r: RunnerAct)
    requires Shape(g) && Each(g) && rid < |g.rts| && RunnerEnabled(g.rts[rid], r, g.Unlocked())
    ensures Each(ApplyRunner(g, rid, r)) && Shape(ApplyRunner(g, rid, r))
  {
    assert RtOkAt(g, rid);
    EachLocks(g);
    RunnerShape(g, rid, r);
    RunnerAt(g, rid, r);
    EachFrom(g, ApplyRunner(g, rid, r), rid);
  }

  lemma RunnerAt(g: Group, rid: Rid, r: RunnerAct)
    requires Shape(g) && Locks(g) && rid < |g.rts| && RtOkAt(g, rid) && RunnerEnabled(g.rts[rid], r, g.Unlocked())
    ensures RtOkAt(ApplyRunner(g, rid, r), rid)
  {
    RunnerShape(g, rid, r);
    RunnerKeepsRt(g.rts[rid], r, g.holds[rid], g.testing[rid], g.closing[rid],
      g.writer == Quitter(rid), g.writer == Reuser(rid));
  }

  /** What looking the id up does to the lock; a new runtime has one reference out. */
  lemma SpawnFindShape(g: Group)
    requires Shape(g) && Enabled(g, SpawnFind)
    ensures var h := Apply(g, SpawnFind);
            && Shape(h) && |g.rts| <= |h.rts|
            && (forall i | 0 <= i < |g.rts| :: h.rts[i] == g.rts[i] && h.holds[i] == g.holds[i])
            && h.testing == g.testing && h.closing == g.closing && h.panicked == g.panicked
            && (h.writer.Reuser? ==> |h.rts| == |g.rts| && !h.rts[h.writer.found].Closed())
            && !h.writer.Quitter?
            && (|h.rts| > |g.rts| ==>
                  && |h.rts| == |g.rts| + 1 && h.writer.Free?
                  && h.rts[|g.rts|] == Newborn(g.writer.spawning) && h.holds[|g.rts|] == 1)
  {
  }

  lemma SpawnFindKeeps(g: Group)
    requires Shape(g) && Each(g) && Enabled(g, SpawnFind)
    ensures Each(Apply(g, SpawnFind)) && Shape(Apply(g, SpawnFind)) && Apply(g, SpawnFind).panicked == g.panicked
  {
    SpawnFindShape(g);
    var h := Apply(g, SpawnFind);
    forall i | 0 <= i < |h.rts| ensures RtOkAt(h, i) {
      assert i < |g.rts| ==> RtOkAt(g, i);
    }
  }

  lemma LockKeeps(g: Group, a: Action)
    requires Shape(g) && Each(g) && Enabled(g, a) && !a.Token? && !a.Run? && !a.SpawnFind?
    ensures Each(Apply(g, a)) && Shape(Apply(g, a))
  {
    var h := Apply(g, a);
    forall i | 0 <= i < |h.rts| ensures RtOkAt(h, i) {
      assert RtOkAt(g, i);
    }
  }

  lemma RuntimesKeep(g: Group, a: Action)
    requires Shape(g) && Each(g) && Enabled(g, a) && Calm(g, a)
    ensures Each(Apply(g, a)) && Shape(Apply(g, a)) && Apply(g, a).panicked == g.panicked
  {
    match a
    case Token(rid, t) => TokenKeeps(g, rid, t);
    case Run(rid, r) => RunnerKeeps(g, rid, r);
    case SpawnFind => SpawnFindKeeps(g);
    case _ => LockKeeps(g, a);
  }

  // ------------------------------------------------------------ the map and the counter

  lemma InsertMapped(g: Group, id: Id)
    requires Mapped(g)
    requires id in g.actors ==> !g.rts[g.actors[id]].Live()
    ensures Mapped(Insert(g, id))
  {
    var h := Insert(g, id);
    forall i | 0 <= i < |h.rts| && h.rts[i].Live()
      ensures h.rts[i].id in h.actors && h.actors[h.rts[i].id] == i
    {
      assert i < |g.rts| ==> g.rts[i].Live() && g.actors[g.rts[i].id] == i;
    }
  }

  lemma TokenMapped(g: Group, rid: Rid, t: TokenAct)
    requires Mapped(g) && Enabled(g, Token(rid, t))
    ensures Mapped(ApplyToken(g, rid, t))
  {
    var h := ApplyToken(g, rid, t);
    assert forall i | 0 <= i < |g.rts| :: h.rts[i].phase == g.rts[i].phase && h.rts[i].id == g.rts[i].id;
  }

  lemma MappedKeeps(g: Group, a: Action)
    requires Mapped(g) && Enabled(g, a)
    ensures Mapped(Apply(g, a))
  {
    match a
    case Run(rid, r) => RunMapped(g, rid, r);
    case Token(rid, t) => TokenMapped(g, rid, t);
    case SpawnFind =>
      if !(g.writer.spawning in g.actors && !g.rts[g.actors[g.writer.spawning]].Closed()) {
        InsertMapped(g, g.writer.spawning);
      }
    case _ =>
  }

  lemma RunMapped(g: Group, rid: Rid, r: RunnerAct)
    requires Mapped(g) && Enabled(g, Run(rid, r))
    ensures Mapped(ApplyRunner(g, rid, r))
  {
    var h := ApplyRunner(g, rid, r);
    var rt := g.rts[rid];
    assert h.rts[rid] == RunnerOn(rt, r) && h.rts[rid].id == rt.id;
    assert h.rts[rid].Live() ==> rt.Live();
    assert !r.Remove? ==> h.rts[rid].phase != Removed;
    forall i | 0 <= i < |h.rts| && h.rts[i].Live()
      ensures h.rts[i].id in h.actors && h.actors[h.rts[i].id] == i
    {
      assert g.rts[i].Live() && g.actors[g.rts[i].id] == i;
    }
  }

  /** Closing runtimes and dropping map entries cannot make closeGroup miss anyone. */
  lemma StopFrom(g: Group, h: Group)
    requires Mapped(g) && StopOk(g) && |h.rts| == |g.rts|
    requires h.writer.Spawner? || h.writer.Reuser? ==> h.writer == g.writer
    requires forall i | 0 <= i < |g.rts| && g.rts[i].Closed() :: h.rts[i].Closed()
    requires forall id | id in h.actors :: id in g.actors && h.actors[id] == g.actors[id]
    requires h.stop == g.stop
    ensures StopOk(h)
  {
  }

  lemma TokenStop(g: Group, rid: Rid, t: TokenAct)
    requires Mapped(g) && StopOk(g) && Enabled(g, Token(rid, t))
    ensures StopOk(ApplyToken(g, rid, t))
  {
    var h := ApplyToken(g, rid, t);
    assert forall i | 0 <= i < |g.rts| && i != rid :: h.rts[i] == g.rts[i];
    assert g.rts[rid].Closed() ==> h.rts[rid].Closed();
    StopFrom(g, h.(stop := g.stop));
    assert t.StopSwap? ==> h.rts[rid].Closed();
  }

  lemma RunStop(g: Group, rid: Rid, r: RunnerAct)
    requires Mapped(g) && StopOk(g) && Enabled(g, Run(rid, r))
    ensures StopOk(ApplyRunner(g, rid, r))
  {
    var h := ApplyRunner(g, rid, r);
    assert forall i | 0 <= i < |g.rts| && i != rid :: h.rts[i] == g.rts[i];
    assert g.rts[rid].Closed() ==> h.rts[rid].Closed();
    StopFrom(g, h);
  }

  lemma StopKeeps(g: Group, a: Action)
    requires Shape(g) && Mapped(g) && StopOk(g) && Enabled(g, a)
    ensures StopOk(Apply(g, a))
  {
    match a
    case Run(rid, r) => RunStop(g, rid, r);
    case Token(rid, t) => TokenStop(g, rid, t);
    case StopLock =>
      forall id | id in g.actors ensures g.actors[id] in g.actors.Values {
      }
    case _ =>
  }

  lemma IdleSame(g: Group, h: Group)
    requires IdleOk(g) && IdleIds(h) == IdleIds(g) && h.idle == g.idle && h.leaked == g.leaked
    ensures IdleOk(h)
  {
  }

  lemma TokenStays(rt: Runtime, t: TokenAct)
    ensures var rt1 := TokenOn(rt, t); rt1.id == rt.id && rt1.phase == rt.phase && rt1.ctx == rt.ctx
    ensures rt.Closed() ==> TokenOn(rt, t).Closed()
  {
  }

  lemma TokenIdle(g: Group, rid: Rid, t: TokenAct)
    requires Mapped(g) && IdleOk(g) && Enabled(g, Token(rid, t))
    ensures IdleOk(ApplyToken(g, rid, t))
  {
    TokenStays(g.rts[rid], t);
    var h := ApplyToken(g, rid, t);
    assert h.rts == g.rts[rid := TokenOn(g.rts[rid], t)];
    assert IdleIds(h) == IdleIds(g);
  }

  /** The counter moves with the runtime's own idle share, but for a leak. */
  lemma IdleShare(rt: Runtime, r: RunnerAct)
    requires RunnerEnabled(rt, r, true)
    ensures IdleDelta(rt, r) - (if r.Leave? && rt.ctx == Inactive then 1 else 0)
            == (if RunnerOn(rt, r).Counted() then 1 else 0) - (if rt.Counted() then 1 else 0)
    ensures RunnerOn(rt, r).Counted() ==> rt.Live()
  {
  }

  lemma RunIdle(g: Group, rid: Rid, r: RunnerAct)
    requires Mapped(g) && IdleOk(g) && Enabled(g, Run(rid, r))
    ensures IdleOk(ApplyRunner(g, rid, r))
  {
    var h := ApplyRunner(g, rid, r);
    var rt := g.rts[rid];
    IdleShare(rt, r);
    IdleMoves(g, h, rid, RunnerOn(rt, r));
  }

  lemma IdleMoves(g: Group, h: Group, rid: Rid, rt1: Runtime)
    requires Mapped(g) && rid < |g.rts| && h.rts == g.rts[rid := rt1]
    requires h.actors == g.actors || (h.actors == g.actors - {g.rts[rid].id} && !g.rts[rid].Live())
    requires h.actors != g.actors ==> g.actors[g.rts[rid].id] == rid
    requires rt1.Counted() ==> g.rts[rid].Live()
    ensures |IdleIds(h)| == |IdleIds(g)| + (if rt1.Counted() then 1 else 0) - (if g.rts[rid].Counted() then 1 else 0)
  {
    var id := g.rts[rid].id;
    if g.rts[rid].Live() {
      forall k | k != id ensures k in IdleIds(h) <==> k in IdleIds(g) {
        if k in g.actors {
          assert g.actors[k] != rid;
        }
      }
      SizeMoves(IdleIds(g), IdleIds(h), id);
    } else {
      assert IdleIds(h) == IdleIds(g);
    }
  }

  lemma SizeMoves(a: set<Id>, b: set<Id>, id: Id)
    requires forall k | k != id :: k in b <==> k in a
    ensures |b| == |a| + (if id in b then 1 else 0) - (if id in a then 1 else 0)
  {
    var rest := a - {id};
    assert a == if id in a then rest + {id} else rest;
    assert b == if id in b then rest + {id} else rest;
  }

  lemma InsertIdle(g: Group, id: Id)
    requires Mapped(g) && IdleOk(g)
    requires id in g.actors ==> !g.rts[g.actors[id]].Live()
    ensures IdleOk(Insert(g, id))
  {
    var h := Insert(g, id);
    assert h.rts[|g.rts|] == Newborn(id) && Newborn(id).Counted();
    assert id !in IdleIds(g);
    forall i ensures i in IdleIds(h) <==> i in IdleIds(g) || i == id {
      assert i in g.actors && i != id ==> h.rts[h.actors[i]] == g.rts[g.actors[i]];
    }
    assert IdleIds(h) == IdleIds(g) + {id};
  }

  lemma IdleKeeps(g: Group, a: Action)
    requires Mapped(g) && IdleOk(g) && Enabled(g, a)
    ensures IdleOk(Apply(g, a))
  {
    match a
    case Token(rid, t) => TokenIdle(g, rid, t);
    case Run(rid, r) => RunIdle(g, rid, r);
    case SpawnFind =>
      if Apply(g, a).writer.Free? {
        InsertIdle(g, g.writer.spawning);
      } else {
        IdleSame(g, Apply(g, a));
      }
    case _ => IdleSame(g, Apply(g, a));
  }

  // ------------------------------------------------------------ whole runs

  lemma StepKeeps(g: Group, a: Action)
    requires Inv(g) && Enabled(g, a) && Calm(g, a)
    ensures Inv(Apply(g, a))
  {
    RuntimesKeep(g, a);
    MappedKeeps(g, a);
    StopKeeps(g, a);
    IdleKeeps(g, a);
  }

  lemma EmptyInv()
    ensures Inv(EMPTY)
  {
    assert IdleIds(EMPTY) == {};
  }

  /** Every calm run keeps the invariant. */
  lemma {:induction false} RunKeeps(g: Group, acts: seq<Action>)
    requires Inv(g) && CalmRun(g, acts)
    ensures Runs(g, acts) && Inv(After(g, acts))
    decreases |acts|
  {
    if acts != [] {
      StepKeeps(g, acts[0]);
      RunKeeps(Apply(g, acts[0]), acts[1..]);
    }
  }
}
