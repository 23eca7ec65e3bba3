/** What every run of the group keeps, calm or not. */
module GroupAlways {
  import opened GroupProtocol
  import opened GroupInvariant

  /** A runtime nobody has closed from outside is as in a calm run. */
  ghost predicate OwnOk(g: Group) {
    forall i | 0 <= i < |g.rts| :: g.rts[i].closedBy == External || RtOkAt(g, i)
  }

  ghost predicate Lines(g: Group) {
    forall i | 0 <= i < |g.rts| :: LineOk(g.rts[i])
  }

  ghost predicate Always(g: Group) {
    Shape(g) && Locks(g) && OwnOk(g) && Lines(g) && Mapped(g) && StopOk(g) && IdleOk(g)
  }

  // ------------------------------------------------------------ one action

  lemma OwnFrom(g: Group, h: Group, j: Rid)
    requires OwnOk(g) && OnlyAt(g, h, j)
    requires j < |h.rts| ==> h.rts[j].closedBy == External || RtOkAt(h, j)
    ensures OwnOk(h)
  {
    forall i | 0 <= i < |h.rts| ensures h.rts[i].closedBy == External || RtOkAt(h, i) {
      assert i != j ==> g.rts[i].closedBy == External || RtOkAt(g, i);
    }
  }

  /** Closing from outside is calm, or makes the runtime one that is closed from outside. */
  lemma TokenOwn(g: Group, rid: Rid, t: TokenAct)
    requires Shape(g) && OwnOk(g) && rid < |g.rts| && TokenEnabled(g, rid, t)
    ensures OwnOk(ApplyToken(g, rid, t))
  {
    TokenElsewhere(g, rid, t);
    if RtOkAt(g, rid) && Calm(g, Token(rid, t)) {
      TokenAt(g, rid, t);
    }
    OwnFrom(g, ApplyToken(g, rid, t), rid);
  }

  lemma RunnerOwn(g: Group, rid: Rid, r: RunnerAct)
    requires Shape(g) && Locks(g) && OwnOk(g) && rid < |g.rts| && RunnerEnabled(g.rts[rid], r, g.Unlocked())
    ensures OwnOk(ApplyRunner(g, rid, r))
  {
    RunnerShape(g, rid, r);
    if RtOkAt(g, rid) {
      RunnerAt(g, rid, r);
    }
    OwnFrom(g, ApplyRunner(g, rid, r), rid);
  }

  lemma TokenLocks(g: Group, rid: Rid, t: TokenAct)
    requires Shape(g) && Locks(g) && rid < |g.rts| && TokenEnabled(g, rid, t)
    ensures Locks(ApplyToken(g, rid, t))
  {
    TokenElsewhere(g, rid, t);
    TokenStays(g.rts[rid], t);
  }

  lemma RunnerLocks(g: Group, rid: Rid, r: RunnerAct)
    requires Shape(g) && Locks(g) && rid < |g.rts| && RunnerEnabled(g.rts[rid], r, g.Unlocked())
    ensures Locks(ApplyRunner(g, rid, r))
  {
    RunnerShape(g, rid, r);
  }

  /** A mailbox that is closed accepts nothing. */
  lemma TokenLine(rt: Runtime, t: TokenAct)
    requires LineOk(rt)
    ensures LineOk(TokenOn(rt, t))
  {
    if t.Send? {
      assert rt.accepted + [t.m] == rt.handled + rt.failed + rt.buf + (rt.mailbox + [t.m]);
    }
  }

  lemma TokenAlways(g: Group, rid: Rid, t: TokenAct)
    requires Always(g) && Enabled(g, Token(rid, t))
    ensures var h := ApplyToken(g, rid, t); Shape(h) && Locks(h) && OwnOk(h) && Lines(h)
  {
    TokenShape(g, rid, t);
    TokenLocks(g, rid, t);
    TokenOwn(g, rid, t);
    TokenElsewhere(g, rid, t);
    TokenLine(g.rts[rid], t);
  }

  lemma RunnerAlways(g: Group, rid: Rid, r: RunnerAct)
    requires Always(g) && Enabled(g, Run(rid, r))
    ensures var h := ApplyRunner(g, rid, r); Shape(h) && Locks(h) && OwnOk(h) && Lines(h)
  {
    RunnerShape(g, rid, r);
    RunnerLocks(g, rid, r);
    RunnerOwn(g, rid, r);
    RunnerKeepsLine(g.rts[rid], r);
  }

  lemma FindOwnAt(g: Group, i: Rid)
    requires Shape(g) && Enabled(g, SpawnFind) && i < |g.rts| && RtOkAt(g, i)
    ensures RtOkAt(Apply(g, SpawnFind), i)
  {
    SpawnFindShape(g);
  }

  lemma FindOwn(g: Group)
    requires Shape(g) && OwnOk(g) && Enabled(g, SpawnFind)
    ensures OwnOk(Apply(g, SpawnFind))
  {
    SpawnFindShape(g);
    var h := Apply(g, SpawnFind);
    forall i | 0 <= i < |h.rts| ensures h.rts[i].closedBy == External || RtOkAt(h, i) {
      if i < |g.rts| && RtOkAt(g, i) {
        FindOwnAt(g, i);
      }
    }
  }

  lemma FindAlways(g: Group)
    requires Always(g) && Enabled(g, SpawnFind)
    ensures var h := Apply(g, SpawnFind); Shape(h) && Locks(h) && OwnOk(h) && Lines(h)
  {
    SpawnFindShape(g);
    FindOwn(g);
    var h := Apply(g, SpawnFind);
    forall i | 0 <= i < |h.rts| ensures LineOk(h.rts[i]) && !InQuit(h.rts[i]) {
      assert i < |g.rts| ==> LineOk(g.rts[i]) && (g.writer == Quitter(i) <==> InQuit(g.rts[i]));
    }
  }

  lemma LockAlways(g: Group, a: Action)
    requires Always(g) && Enabled(g, a) && !a.Token? && !a.Run? && !a.SpawnFind?
    ensures var h := Apply(g, a); Shape(h) && Locks(h) && OwnOk(h) && Lines(h)
  {
    var h := Apply(g, a);
    assert h.rts == g.rts;
    forall i | 0 <= i < |h.rts| ensures h.rts[i].closedBy == External || RtOkAt(h, i) {
      assert g.rts[i].closedBy == External || RtOkAt(g, i);
    }
  }

  lemma StepAlways(g: Group, a: Action)
    requires Always(g) && Enabled(g, a)
    ensures Always(Apply(g, a))
  {
    MappedKeeps(g, a);
    StopKeeps(g, a);
    IdleKeeps(g, a);
    match a
    case Token(rid, t) => TokenAlways(g, rid, t);
    case Run(rid, r) => RunnerAlways(g, rid, r);
    case SpawnFind => FindAlways(g);
    case _ => LockAlways(g, a);
  }

  lemma {:induction false} RunAlways(g: Group, acts: seq<Action>)
    requires Always(g) && Runs(g, acts)
    ensures Always(After(g, acts))
    decreases |acts|
  {
    if acts != [] {
      StepAlways(g, acts[0]);
      RunAlways(Apply(g, acts[0]), acts[1..]);
    }
  }

  lemma Reached(acts: seq<Action>) returns (g: Group)
    requires Runs(EMPTY, acts)
    ensures g == After(EMPTY, acts) && Always(g)
  {
    EmptyInv();
    RunAlways(EMPTY, acts);
    g := After(EMPTY, acts);
  }
}
