/** The promises of the group, over every run from the empty group; what concerns reference
    counts, over every calm one. */
module GroupTheorems {
  import opened GroupProtocol
  import opened GroupInvariant
  import opened GroupAlways

  lemma CalmlyReached(acts: seq<Action>) returns (g: Group)
    requires CalmRun(EMPTY, acts)
    ensures Runs(EMPTY, acts) && g == After(EMPTY, acts) && Inv(g)
  {
    EmptyInv();
    RunKeeps(EMPTY, acts);
    g := After(EMPTY, acts);
  }

  /** The counter of a runtime is the number of references to it: the manager's, until the
      requestClose that won has dropped it, and one for each reference taken. The mailbox is
      closed exactly when that number is 0, once, and only for a runtime that has been
      closed. No send ever meets a closed mailbox. */
  lemma ReferenceCount(acts: seq<Action>, rid: Rid)
    requires CalmRun(EMPTY, acts)
    ensures Runs(EMPTY, acts)
    ensures var g := After(EMPTY, acts);
            && !g.panicked
            && (rid < |g.rts| ==>
                  var rt := g.rts[rid];
                  && rt.holder == g.holds[rid] +
                       (if rt.Closed() && g.closing[rid] == 0 && rt.phase != Releasing then 0 else 1)
                  && rt.shut == (if rt.holder == 0 then 1 else 0)
                  && (rt.holder == 0 ==> rt.Closed())
                  && (g.holds[rid] > 0 ==> rt.shut == 0))
  {
    var g := CalmlyReached(acts);
    if rid < |g.rts| {
      assert RtOkAt(g, rid);
    }
  }

  /** Self-exit loses nothing: a runtime nobody closed from outside never fails an accepted
      message, and once it has closed itself it has handled all of them, no reference to it
      is out and none can be taken; whatever is done to other runtimes. */
  lemma SelfExitLosesNothing(acts: seq<Action>, rid: Rid)
    requires Runs(EMPTY, acts)
    ensures var g := After(EMPTY, acts);
            rid < |g.rts| && g.rts[rid].closedBy != External ==>
              && g.rts[rid].failed == []
              && (g.rts[rid].Closed() ==>
                    && g.rts[rid].handled == g.rts[rid].accepted
                    && g.holds[rid] == 0
                    && !InWindow(g, rid))
  {
    var g := Reached(acts);
    if rid < |g.rts| && g.rts[rid].closedBy != External {
      assert RtOkAt(g, rid);
      var rt := g.rts[rid];
      assert rt.handled + [] + [] + [] == rt.handled;
    }
  }

  /** Closed by anyone, a finished runtime has handled a prefix of what it accepted and
      failed exactly the rest, in order. */
  lemma NothingVanishes(acts: seq<Action>, rid: Rid)
    requires Runs(EMPTY, acts)
    ensures var g := After(EMPTY, acts);
            rid < |g.rts| ==>
              && var rt := g.rts[rid];
              && rt.accepted == rt.handled + rt.failed + rt.buf + rt.mailbox
              && (!rt.Live() ==> rt.accepted == rt.handled + rt.failed)
  {
    var g := Reached(acts);
    if rid < |g.rts| {
      assert LineOk(g.rts[rid]);
      var rt := g.rts[rid];
      assert rt.handled + rt.failed + [] + [] == rt.handled + rt.failed;
    }
  }

  /** One runner per id: two runtimes of one id never run at the same time, and the one
      that runs is the one the id maps to, whoever else is being removed. */
  lemma OneRunnerPerId(acts: seq<Action>, i: Rid, j: Rid)
    requires Runs(EMPTY, acts)
    ensures var g := After(EMPTY, acts);
            && (i < |g.rts| && g.rts[i].Live() ==> g.rts[i].id in g.actors && g.actors[g.rts[i].id] == i)
            && (i < |g.rts| && j < |g.rts| && i != j && g.rts[i].id == g.rts[j].id ==> !(g.rts[i].Live() && g.rts[j].Live()))
  {
    var g := Reached(acts);
  }

  /** Close is complete: once closeGroup's loop has finished, in every later state every
      runtime that still runs is closed and in the map, and none has been inserted. */
  lemma CloseIsComplete(acts: seq<Action>, more: seq<Action>)
    requires Runs(EMPTY, acts) && After(EMPTY, acts).stop.Closed? && Runs(After(EMPTY, acts), more)
    ensures var g, h := After(EMPTY, acts), After(After(EMPTY, acts), more);
            && |h.rts| == |g.rts|
            && (forall i | 0 <= i < |h.rts| && h.rts[i].Live() ::
                  h.rts[i].Closed() && h.rts[i].id in h.actors && h.actors[h.rts[i].id] == i)
  {
    var g := Reached(acts);
    NoInsertOnceClosed(g, more);
    RunAlways(g, more);
  }

  lemma StaysClosed(g: Group, a: Action)
    requires StopOk(g) && g.stop.Closed? && Enabled(g, a)
    ensures Apply(g, a).stop.Closed? && |Apply(g, a).rts| == |g.rts|
  {
  }

  lemma {:induction false} NoInsertOnceClosed(g: Group, acts: seq<Action>)
    requires Always(g) && g.stop.Closed? && Runs(g, acts)
    ensures After(g, acts).stop.Closed? && |After(g, acts).rts| == |g.rts|
    decreases |acts|
  {
    if acts != [] {
      StepAlways(g, acts[0]);
      StaysClosed(g, acts[0]);
      NoInsertOnceClosed(Apply(g, acts[0]), acts[1..]);
    }
  }

  // ------------------------------------------------------ counting

  /** The ids of the runtimes that are past being idle: open, or on their way out. */
  function BusyIds(g: Group): set<Id> {
    g.actors.Keys - IdleIds(g)
  }

  lemma SplitIds(g: Group)
    ensures |g.actors| == |IdleIds(g)| + |BusyIds(g)|
  {
    assert g.actors.Keys == IdleIds(g) + BusyIds(g);
  }

  /** A handler of this runtime panics. */
  predicate IsPanic(a: Action, rid: Rid) {
    a.Run? && a.runner == rid && a.r.Handle? && a.r.panicked
  }

  /** This runtime is closed from outside. */
  predicate IsClose(a: Action, rid: Rid) {
    a.Token? && a.rid == rid && (a.t.CloseSwap? || a.t.StopSwap?)
  }

  ghost predicate PanickedAndClosed(acts: seq<Action>, rid: Rid) {
    (exists a :: a in acts && IsPanic(a, rid)) && (exists a :: a in acts && IsClose(a, rid))
  }

  /** count() is the number of mapped runtimes that are not idle, less the number of runners
      that have left their loop with an inactive context; and that is none as long as no
      runtime has both panicked and been closed from outside. */
  lemma CountExact(acts: seq<Action>)
    requires Runs(EMPTY, acts)
    ensures var g := After(EMPTY, acts);
            && g.Count() == |BusyIds(g)| - g.leaked
            && ((forall rid :: !PanickedAndClosed(acts, rid)) ==> g.Count() == |BusyIds(g)|)
  {
    var g := Reached(acts);
    SplitIds(g);
    if g.leaked > 0 {
      var rid := LeakHasCauses(acts);
    }
  }

  lemma InactiveByPanic(g: Group, a: Action, rid: Rid)
    requires Enabled(g, a) && rid < |Apply(g, a).rts| && Apply(g, a).rts[rid].ctx == Inactive
    ensures (rid < |g.rts| && g.rts[rid].ctx == Inactive) || IsPanic(a, rid)
  {
    match a
    case Token(r, t) => TokenStays(g.rts[r], t);
    case Run(r, act) => assert r != rid ==> ApplyRunner(g, r, act).rts[rid] == g.rts[rid];
    case SpawnFind => assert rid < |g.rts| ==> Apply(g, a).rts[rid] == g.rts[rid];
    case _ =>
  }

  lemma ClosedByClose(g: Group, a: Action, rid: Rid)
    requires Enabled(g, a) && rid < |Apply(g, a).rts| && Apply(g, a).rts[rid].closedBy == External
    ensures (rid < |g.rts| && g.rts[rid].closedBy == External) || IsClose(a, rid)
  {
    match a
    case Token(r, t) => assert r != rid ==> ApplyToken(g, r, t).rts[rid] == g.rts[rid];
    case Run(r, act) => assert r != rid ==> ApplyRunner(g, r, act).rts[rid] == g.rts[rid];
    case SpawnFind => assert rid < |g.rts| ==> Apply(g, a).rts[rid] == g.rts[rid];
    case _ =>
  }

  lemma {:induction false} Unsnoc(g: Group, acts: seq<Action>)
    requires acts != [] && Runs(g, acts)
    ensures var front, a := acts[..|acts| - 1], acts[|acts| - 1];
            Runs(g, front) && Enabled(After(g, front), a) && After(g, acts) == Apply(After(g, front), a)
    decreases |acts|
  {
    if |acts| == 1 {
      assert acts[1..] == [];
    } else {
      Unsnoc(Apply(g, acts[0]), acts[1..]);
      assert acts[..|acts| - 1][1..] == acts[1..][..|acts| - 2];
    }
  }

  /** Where an inactive context, and a close from outside, come from. */
  lemma {:induction false} Causes(acts: seq<Action>, rid: Rid)
    requires Runs(EMPTY, acts) && rid < |After(EMPTY, acts).rts|
    ensures After(EMPTY, acts).rts[rid].ctx == Inactive ==> exists a :: a in acts && IsPanic(a, rid)
    ensures After(EMPTY, acts).rts[rid].closedBy == External ==> exists a :: a in acts && IsClose(a, rid)
    decreases |acts|
  {
    if acts != [] {
      var front, a := acts[..|acts| - 1], acts[|acts| - 1];
      Unsnoc(EMPTY, acts);
      var g := After(EMPTY, front);
      if rid < |g.rts| {
        Causes(front, rid);
      }
      if After(EMPTY, acts).rts[rid].ctx == Inactive { InactiveByPanic(g, a, rid); }
      if After(EMPTY, acts).rts[rid].closedBy == External { ClosedByClose(g, a, rid); }
      assert forall x :: x in front ==> x in acts;
    }
  }

  /** A runner that leaves its loop with an inactive context has been closed from outside. */
  lemma LeaverIsClosed(g: Group, rid: Rid)
    requires Always(g) && rid < |g.rts| && g.rts[rid].phase == Leaving && g.rts[rid].ctx == Inactive
    ensures g.rts[rid].closedBy == External
  {
    assert g.rts[rid].closedBy == External || RtOkAt(g, rid);
  }

  lemma {:induction false} LeakHasCauses(acts: seq<Action>) returns (rid: Rid)
    requires Runs(EMPTY, acts) && After(EMPTY, acts).leaked > 0
    ensures PanickedAndClosed(acts, rid)
    decreases |acts|
  {
    var front, a := acts[..|acts| - 1], acts[|acts| - 1];
    Unsnoc(EMPTY, acts);
    var g := Reached(front);
    assert forall x :: x in front ==> x in acts;
    if g.leaked > 0 {
      rid := LeakHasCauses(front);
    } else {
      rid := LeakedNow(g, a);
      LeaverIsClosed(g, rid);
      Causes(front, rid);
    }
  }

  lemma LeakedNow(g: Group, a: Action) returns (rid: Rid)
    requires Enabled(g, a) && Apply(g, a).leaked > g.leaked
    ensures rid < |g.rts| && g.rts[rid].phase == Leaving && g.rts[rid].ctx == Inactive
  {
    rid := a.runner;
  }

  /** And those are enough: whenever a runtime that is open handles a message, a panic and a
      close before the replacement is handled leave the count one too low for good. */
  lemma PanicThenCloseLeaks(g: Group, rid: Rid)
    requires rid < |g.rts| && RunnerEnabled(g.rts[rid], Handle(Inactive, true), false) && !g.rts[rid].Closed()
    ensures var acts := [Run(rid, Handle(Inactive, true)), Token(rid, CloseSwap), Run(rid, SeeClosed), Run(rid, Leave)];
            Runs(g, acts) && After(g, acts).leaked == g.leaked + 1
  {
    var a, b := Run(rid, Handle(Inactive, true)), Token(rid, CloseSwap);
    PanicStep(g, rid);
    CloseStep(Apply(g, a), rid);
    LeaveSteps(Apply(Apply(g, a), b), rid);
    RunsCons(Apply(g, a), b, [Run(rid, SeeClosed), Run(rid, Leave)]);
    RunsCons(g, a, [b, Run(rid, SeeClosed), Run(rid, Leave)]);
    assert [a, b, Run(rid, SeeClosed), Run(rid, Leave)] == [a] + [b, Run(rid, SeeClosed), Run(rid, Leave)];
    assert [b, Run(rid, SeeClosed), Run(rid, Leave)] == [b] + [Run(rid, SeeClosed), Run(rid, Leave)];
  }

  /** At work on a message, with a context that is not active. */
  predicate HoldsInactive(g: Group, rid: Rid, leaked: nat, closed: bool) {
    && rid < |g.rts| && g.rts[rid].phase == Working && g.rts[rid].ctx == Inactive
    && g.rts[rid].Closed() == closed && g.leaked == leaked
  }

  lemma PanicStep(g: Group, rid: Rid)
    requires rid < |g.rts| && RunnerEnabled(g.rts[rid], Handle(Inactive, true), false) && !g.rts[rid].Closed()
    ensures Enabled(g, Run(rid, Handle(Inactive, true)))
    ensures HoldsInactive(Apply(g, Run(rid, Handle(Inactive, true))), rid, g.leaked, false)
  {
  }

  lemma CloseStep(g: Group, rid: Rid)
    requires HoldsInactive(g, rid, g.leaked, false)
    ensures Enabled(g, Token(rid, CloseSwap)) && HoldsInactive(Apply(g, Token(rid, CloseSwap)), rid, g.leaked, true)
  {
  }

  lemma LeaveSteps(g: Group, rid: Rid)
    requires HoldsInactive(g, rid, g.leaked, true)
    ensures var acts := [Run(rid, SeeClosed), Run(rid, Leave)];
            Runs(g, acts) && After(g, acts).leaked == g.leaked + 1
  {
    var g1 := Apply(g, Run(rid, SeeClosed));
    assert g1.rts[rid].phase == Leaving && g1.rts[rid].ctx == Inactive && g1.leaked == g.leaked;
    var g2 := Apply(g1, Run(rid, Leave));
    assert g2.leaked == g.leaked + 1;
    assert Runs(g2, []) && After(g2, []) == g2;
    RunsCons(g1, Run(rid, Leave), []);
    RunsCons(g, Run(rid, SeeClosed), [Run(rid, Leave)]);
    assert [Run(rid, Leave)] + [] == [Run(rid, Leave)];
    assert [Run(rid, SeeClosed), Run(rid, Leave)] == [Run(rid, SeeClosed)] + [Run(rid, Leave)];
  }

  lemma RunsCons(g: Group, a: Action, acts: seq<Action>)
    requires Enabled(g, a) && Runs(Apply(g, a), acts)
    ensures Runs(g, [a] + acts) && After(g, [a] + acts) == After(Apply(g, a), acts)
  {
    assert ([a] + acts)[1..] == acts;
  }

  // ------------------------------------------------------ the gap before the hold

  ghost predicate CanPanic(g: Group) {
    exists acts :: CalmRun(g, acts) && Runs(g, acts) && After(g, acts).panicked
  }

  /** From a runtime whose only references left are those already out, and someone still
      about to take one it has tested for: drop the references, take it, and send. */
  lemma {:induction false} SendOnClosed(g: Group, rid: Rid) returns (acts: seq<Action>)
    requires rid < |g.rts| && InWindow(g, rid)
    requires g.rts[rid].holder == g.holds[rid] && (g.holds[rid] == 0 ==> g.rts[rid].shut > 0)
    ensures CalmRun(g, acts) && Runs(g, acts) && After(g, acts).panicked
    decreases g.holds[rid]
  {
    if g.holds[rid] > 0 {
      var step := Token(rid, Unhold);
      var rest := SendOnClosed(Apply(g, step), rid);
      acts := [step] + rest;
      assert acts[1..] == rest;
    } else {
      var take, send := Token(rid, if g.testing[rid] > 0 then HoldAdd else SpawnHold), Token(rid, Send(0));
      TwoSteps(g, take, send);
      acts := [take, send];
    }
  }

  lemma TwoSteps(g: Group, a: Action, b: Action)
    requires Enabled(g, a) && Calm(g, a) && Enabled(Apply(g, a), b) && Calm(Apply(g, a), b)
    ensures CalmRun(g, [a, b]) && Runs(g, [a, b]) && After(g, [a, b]) == Apply(Apply(g, a), b)
  {
    var g1 := Apply(g, a);
    var g2 := Apply(g1, b);
    assert [b][1..] == [] && [a, b][1..] == [b];
    assert CalmRun(g2, []) && Runs(g2, []) && After(g2, []) == g2;
    assert CalmRun(g1, [b]) && Runs(g1, [b]) && After(g1, [b]) == g2;
  }

  /** Closing an open runtime from outside is safe exactly when no one is between the
      closed-test and the hold on it. */
  lemma CloseSafeIffNoOneInWindow(g: Group, rid: Rid)
    requires Inv(g) && rid < |g.rts| && !g.rts[rid].Closed()
    ensures CanPanic(Apply(g, Token(rid, CloseSwap))) <==> InWindow(g, rid)
  {
    assert RtOkAt(g, rid);
    var swap := Token(rid, CloseSwap);
    var h := Apply(g, swap);
    if InWindow(g, rid) {
      var drop := Token(rid, CloseUnhold);
      var rest := SendOnClosed(Apply(h, drop), rid);
      var acts := [drop] + rest;
      assert acts[1..] == rest;
      assert CalmRun(h, acts) && Runs(h, acts) && After(h, acts).panicked;
    } else {
      StepKeeps(g, swap);
      forall acts | CalmRun(h, acts) && Runs(h, acts) ensures !After(h, acts).panicked {
        RunKeeps(h, acts);
      }
    }
  }

  /** The gap is reachable: spawn, let go, look up, and close before the hold. */
  lemma WindowIsReachable()
    ensures exists acts :: CalmRun(EMPTY, acts) && Runs(EMPTY, acts) && |After(EMPTY, acts).rts| == 1
              && !After(EMPTY, acts).rts[0].Closed() && InWindow(After(EMPTY, acts), 0)
  {
    var a, b, c := SpawnEnter(0), SpawnFind, HoldTest(0);
    var g1 := Apply(EMPTY, a);
    assert g1.writer == Spawner(0);
    TwoSteps(g1, b, c);
    assert [a, b, c][1..] == [b, c];
    assert CalmRun(EMPTY, [a, b, c]) && Runs(EMPTY, [a, b, c]);
    assert InWindow(After(EMPTY, [a, b, c]), 0);
  }
}
