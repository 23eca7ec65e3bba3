/**
 The group as an object: the methods of actor/group.go and the atomic operations of
 actor/actor.go they are made of. Each atomic operation is one action of module
 GroupProtocol; each method, run without interruption, is proved to perform a stated
 sequence of them and to return what the group's state says.

 `stop`, `actors`, `idle` and `rts` are the program's state. The ghost fields are the
 positions of the other goroutines and the actions performed so far.
 */
module GroupObject {
  import opened Prelude
  import opened GroupProtocol
  import opened GroupInvariant

  datatype ResolveError = NoError | GroupClosed | NotFound

  datatype PostResult = Delivered | MailboxFull | Rejected(error: ResolveError) | NilPanic

  /** An action, where it is enabled. */
  function Do(g: Group, a: Action): Group {
    if Enabled(g, a) then Apply(g, a) else g
  }

  class ActorGroup {
    var stop: Stop
    var actors: map<Id, Rid>
    var idle: int
    var rts: seq<Runtime>
    ghost var world: Group // the ghost parts of the group

    constructor ()
      ensures State() == EMPTY
    {
      stop, actors, idle, rts, world := Open, map[], 0, [], EMPTY;
    }

    ghost function State(): Group
      reads this
    {
      world.(actors := actors, idle := idle, rts := rts, stop := stop)
    }

    /** The runtime an id maps to is open. */
    predicate IsOpen(id: Id)
      reads this
    {
      id in actors && actors[id] < |rts| && !rts[actors[id]].Closed()
    }

    /** resolveActor comes as far as spawnActor. */
    predicate WouldSpawn(id: Id, allowSpawn: bool)
      reads this
    {
      stop == Open && !IsOpen(id) && allowSpawn
    }

    /** There is no predecessor to wait for. */
    predicate GoneIfMapped(id: Id)
      reads this
    {
      id in actors && actors[id] < |rts| ==> !rts[actors[id]].Live()
    }

    // ------------------------------------------------------ atomic operations

    /** actorRuntime.hold, after the closed-test of holdActor. */
    method HoldTested(rid: Rid)
      requires rid < |rts| && world.testing[rid] > 0
      modifies this`rts, this`world
      ensures State() == ApplyToken(old(State()), rid, HoldAdd)
    {
      var rt := rts[rid].(holder := rts[rid].holder + 1);
      rts := rts[rid := rt];
      world := world.(holds := world.holds + multiset{rid});
      world := world.(testing := world.testing - multiset{rid});
    }

    /** actorRuntime.hold, after the closed-test of spawnActor. */
    method HoldFound(rid: Rid)
      requires rid < |rts| && world.writer == Reuser(rid)
      modifies this`rts, this`world
      ensures State() == ApplyToken(old(State()), rid, SpawnHold)
    {
      var rt := rts[rid].(holder := rts[rid].holder + 1);
      rts := rts[rid := rt];
      world := world.(holds := world.holds + multiset{rid});
      world := world.(writer := Free);
    }

    /** The counter side of unhold: the last reference closes the mailbox. */
    method Drop(rid: Rid)
      requires rid < |rts|
      modifies this`rts
      ensures rts == old(rts)[rid := Dropped(old(rts)[rid])]
    {
      var rt := rts[rid].(holder := rts[rid].holder - 1);
      if rt.holder == 0 {
        rt := rt.(shut := rt.shut + 1);
      }
      rts := rts[rid := rt];
    }

    /** actorRuntime.unhold by the owner of a reference. */
    method Unhold(rid: Rid)
      requires rid < |rts| && world.holds[rid] > 0
      modifies this`rts, this`world
      ensures State() == ApplyToken(old(State()), rid, TokenAct.Unhold)
    {
      assert TokenOn(rts[rid], TokenAct.Unhold) == Dropped(rts[rid]);
      Drop(rid);
      world := world.(holds := world.holds - multiset{rid});
    }

    /** actorRuntime.send by the owner of a reference: a full mailbox drops the message. */
    method Send(rid: Rid, m: Msg, full: bool) returns (ok: bool)
      requires rid < |rts| && world.holds[rid] > 0 && rts[rid].shut == 0 // by ReferenceCount
      modifies this`rts
      ensures ok == !full
      ensures State() == if ok then ApplyToken(old(State()), rid, TokenAct.Send(m)) else old(State())
    {
      if full { return false; }
      var rt := rts[rid].(mailbox := rts[rid].mailbox + [m], accepted := rts[rid].accepted + [m]);
      rts := rts[rid := rt];
      ok := true;
    }

    /** actorRuntime.requestClose from outside the runner: idempotent. */
    method RequestClose(rid: Rid)
      requires rid < |rts|
      modifies this`rts
      ensures var g := ApplyToken(old(State()), rid, CloseSwap);
              State() == if old(rts[rid].Closed()) then g else ApplyToken(g, rid, CloseUnhold)
      ensures rts == old(rts)[rid := if old(rts[rid].Closed()) then old(rts[rid])
                                     else Dropped(old(rts[rid]).(closedBy := External))]
    {
      if !rts[rid].Closed() {
        var rt := rts[rid].(closedBy := External);
        rts := rts[rid := rt];
        Drop(rid);
      }
    }

    // ------------------------------------------------------ lookups

    /** holdActor: the lookup, the closed-test and the hold, under the read lock. */
    method HoldActor(id: Id) returns (a: Option<Rid>)
      requires Mapped(State()) && world.writer.Free?
      modifies this
      ensures a == if old(IsOpen(id)) then Some(old(actors)[id]) else None
      ensures State() == if a.None? then old(State())
                         else Do(Do(old(State()), HoldTest(id)), Token(a.value, HoldAdd))
    {
      if id !in actors || rts[actors[id]].Closed() { return None; }
      world := world.(testing := world.testing + multiset{actors[id]});
      HoldTested(actors[id]);
      a := Some(actors[id]);
    }

    /** The insertion of spawnActor: in the map, counted idle, one reference out. */
    method AddNew(id: Id) returns (rid: Rid)
      modifies this`rts, this`actors, this`idle, this`world
      ensures rid == |old(rts)| && State() == Insert(old(State()), id)
    {
      rid := |rts|;
      rts := rts + [Newborn(id)];
      actors := actors[id := rid];
      idle := idle + 1;
      world := world.(holds := world.holds + multiset{rid});
      world := world.(writer := Free);
    }

    /** spawnActor. It waits for a closed predecessor to be past its doneCh. */
    method SpawnActor(id: Id) returns (a: Option<Rid>, spawned: bool)
      requires Mapped(State()) && State().Unlocked()
      requires stop == Open && id in actors && rts[actors[id]].Closed() ==> !rts[actors[id]].Live()
      modifies this
      ensures a.None? <==> old(stop) != Open
      ensures spawned <==> a.Some? && !old(IsOpen(id))
      ensures a.Some? ==> a.value == if spawned then |old(rts)| else old(actors)[id]
      ensures a.None? ==> State() == old(State())
      ensures a.Some? ==> var g := Do(Do(old(State()), SpawnEnter(id)), SpawnFind);
                          State() == if spawned then g else ApplyToken(g, a.value, SpawnHold)
      ensures a.Some? ==> a.value < |rts| && rts[a.value].id == id && world.holds[a.value] > 0
    {
      if stop != Open { return None, false; }
      SpawnSteps(State(), id);
      if id in actors && !rts[actors[id]].Closed() {
        world := world.(writer := Reuser(actors[id]));
        HoldFound(actors[id]);
        return Some(actors[id]), false;
      }
      var rid := AddNew(id);
      a, spawned := Some(rid), true;
    }

    /** resolveActor. `stopArrives` says whether closeGroup sets its flag between the first
        look at it and the one under the lock. */
    method ResolveActor(id: Id, allowSpawn: bool, stopArrives: bool)
      returns (a: Option<Rid>, error: ResolveError)
      requires Mapped(State()) && world.writer.Free?
      requires WouldSpawn(id, allowSpawn) ==> State().Unlocked() && (stopArrives || GoneIfMapped(id))
      modifies this
      ensures error == GroupClosed <==> old(stop) != Open
      ensures error == NotFound <==> old(stop) == Open && !old(IsOpen(id)) && !allowSpawn
      // no runtime and no error either: the caller goes on with nothing to send to
      ensures a.None? && error == NoError <==>
                old(stop) == Open && !old(IsOpen(id)) && allowSpawn && stopArrives
      ensures a.Some? ==> error == NoError && a.value < |rts| && rts[a.value].id == id && world.holds[a.value] > 0
      ensures a.Some? ==> rts[a.value].shut == if old(IsOpen(id)) then old(rts)[old(actors)[id]].shut else 0
      ensures a.Some? ==> rts[a.value].accepted == if old(IsOpen(id)) then old(rts)[old(actors)[id]].accepted else []
      ensures world.holds == if a.Some? then old(world.holds) + multiset{a.value} else old(world.holds)
    {
      if stop != Open { return None, GroupClosed; }
      a := Held(id);
      if a.Some? { return a, NoError; }
      if !allowSpawn { return None, NotFound; }
      if stopArrives {
        stop := Stopping;
      }
      a := Spawned(id);
      error := NoError;
    }

    /** HoldActor, for a caller that only wants the reference. */
    method Held(id: Id) returns (a: Option<Rid>)
      requires Mapped(State()) && world.writer.Free?
      modifies this
      ensures a == if old(IsOpen(id)) then Some(old(actors)[id]) else None
      ensures a.None? ==> State() == old(State())
      ensures a.Some? ==>
                && a.value < |old(rts)| == |rts| && rts[a.value].id == id
                && rts[a.value].shut == old(rts)[a.value].shut && rts[a.value].accepted == old(rts)[a.value].accepted
                && world.holds == old(world.holds) + multiset{a.value}
    {
      a := HoldActor(id);
    }

    /** SpawnActor, for an id that has no open runtime. */
    method Spawned(id: Id) returns (a: Option<Rid>)
      requires Mapped(State()) && State().Unlocked() && !IsOpen(id)
      requires stop == Open ==> GoneIfMapped(id)
      modifies this
      ensures a == if old(stop) == Open then Some(|old(rts)|) else None
      ensures a.None? ==> State() == old(State())
      ensures a.Some? ==>
                && |rts| == |old(rts)| + 1 && rts[a.value] == Newborn(id)
                && world.holds == old(world.holds) + multiset{a.value}
    {
      var spawned;
      a, spawned := SpawnActor(id);
    }

    /** handlerPost: resolve, send, give the reference back. A message is accepted by the
        runtime of the id, or its sender is told why not; no reference stays behind. With
        neither runtime nor error in hand the caller panics. */
    method HandlerPost(id: Id, m: Msg, allowSpawn: bool, stopArrives: bool, full: bool)
      returns (r: PostResult, to: Option<Rid>)
      requires Mapped(State()) && world.writer.Free?
      requires WouldSpawn(id, allowSpawn) ==> State().Unlocked() && (stopArrives || GoneIfMapped(id))
      requires IsOpen(id) ==> RtOkAt(State(), actors[id])
      modifies this
      ensures r == NilPanic <==> old(stop) == Open && !old(IsOpen(id)) && allowSpawn && stopArrives
      ensures r == Rejected(GroupClosed) <==> old(stop) != Open
      ensures r == Rejected(NotFound) <==> old(stop) == Open && !old(IsOpen(id)) && !allowSpawn
      ensures r == Delivered || r == MailboxFull <==> to.Some?
      ensures to.Some? ==> to.value < |rts| && rts[to.value].id == id && (r == MailboxFull <==> full)
      ensures to.Some? ==>
                var before := if old(IsOpen(id)) then old(rts)[old(actors)[id]].accepted else [];
                rts[to.value].accepted == if full then before else before + [m]
      ensures world.holds == old(world.holds)
    {
      assert IsOpen(id) ==> rts[actors[id]].shut == 0;
      var a, error := ResolveActor(id, allowSpawn, stopArrives);
      if error != NoError { return Rejected(error), None; }
      if a.None? { return NilPanic, None; }
      SendAndLetGo(a.value, m, full);
      r, to := if full then MailboxFull else Delivered, a;
    }

    /** Send, and give the reference back whatever came of it. */
    method SendAndLetGo(rid: Rid, m: Msg, full: bool)
      requires rid < |rts| && world.holds[rid] > 0 && rts[rid].shut == 0
      modifies this`rts, this`world
      ensures |rts| == |old(rts)| && rts[rid].id == old(rts)[rid].id
      ensures rts[rid].accepted == if full then old(rts)[rid].accepted else old(rts)[rid].accepted + [m]
      ensures world.holds == old(world.holds) - multiset{rid}
    {
      var ok := Send(rid, m, full);
      Unhold(rid);
    }

    // ------------------------------------------------------ leaving

    /** actorQuit: the runtime may go exactly if it is open, unheld and out of mail. */
    method ActorQuit(rid: Rid) returns (ok: bool)
      requires rid < |rts| && RtOkAt(State(), rid)
      requires RunnerEnabled(rts[rid], QuitLock, State().Unlocked())
      modifies this
      ensures world.writer.Free? && |rts| == |old(rts)|
      ensures ok <==> var rt := old(rts)[rid]; !rt.Closed() && old(world.holds)[rid] == 0 && rt.mailbox == []
      ensures ok ==> rts[rid].closedBy == Itself && rts[rid].shut == 1 && rts[rid].phase == Leaving
      ensures !ok ==> rts[rid].phase == Working
                      && rts[rid].buf + rts[rid].mailbox == old(rts)[rid].buf + old(rts)[rid].mailbox
    {
      Runner(rid, QuitLock);
      if rts[rid].Closed() { return false; }
      Inside(rid, QuitHolder);
      if rts[rid].holder > 1 { return false; }
      Inside(rid, QuitPump);
      if rts[rid].buf != [] { return false; }
      Inside(rid, QuitSwap);
      Inside(rid, QuitUnhold);
      ok := true;
    }

    /** A step of actorQuit once it has the lock. */
    method Inside(rid: Rid, r: RunnerAct)
      requires rid < |rts| && InQuit(rts[rid]) && RunnerEnabled(rts[rid], r, true)
      modifies this`rts, this`world
      ensures rts == old(rts)[rid := RunnerOn(old(rts)[rid], r)]
      ensures world.writer == if InQuit(rts[rid]) then Quitter(rid) else Free
    {
      Runner(rid, r);
    }

    /** One step of the runner that touches no more than its runtime and the lock. */
    method Runner(rid: Rid, r: RunnerAct)
      requires rid < |rts| && RunnerEnabled(rts[rid], r, State().Unlocked())
      requires !r.Handle? && !r.Leave? && !r.Remove?
      modifies this`rts, this`world
      ensures State() == ApplyRunner(old(State()), rid, r)
      ensures rts == old(rts)[rid := RunnerOn(old(rts)[rid], r)]
      ensures world.writer == if InQuit(rts[rid]) then Quitter(rid) else if InQuit(old(rts)[rid]) then Free else old(world.writer)
      ensures actors == old(actors) && idle == old(idle) && stop == old(stop)
      ensures world.testing == old(world.testing) && world.holds == old(world.holds) && world.closing == old(world.closing)
    {
      ghost var wasQuitting := InQuit(rts[rid]);
      rts := rts[rid := RunnerOn(rts[rid], r)];
      world := world.(writer := if InQuit(rts[rid]) then Quitter(rid) else if wasQuitting then Free else world.writer);
    }

    /** removeActor: forget the runtime, unless its id has passed to a successor. */
    method RemoveActor(rid: Rid)
      requires Mapped(State()) && rid < |rts| && RunnerEnabled(rts[rid], Remove, State().Unlocked())
      requires !InQuit(rts[rid])
      modifies this
      ensures State() == ApplyRunner(old(State()), rid, Remove)
      ensures forall id | id in old(actors) && old(actors)[id] != rid :: id in actors && actors[id] == old(actors)[id]
      ensures forall id | id in actors :: id in old(actors) && actors[id] == old(actors)[id] != rid
    {
      var id := rts[rid].id;
      var rt := rts[rid].(phase := Removed);
      rts := rts[rid := rt];
      if id in actors && actors[id] == rid {
        actors := actors - {id};
      }
    }

    // ------------------------------------------------------ closing

    /** closeActor: whatever the id maps to is closed afterwards. */
    method CloseActor(id: Id) returns (found: bool)
      requires Mapped(State())
      modifies this
      ensures actors == old(actors) && |rts| == |old(rts)|
      ensures found <==> id in actors
      ensures found ==> actors[id] < |rts| && rts[actors[id]].Closed()
      ensures forall r | 0 <= r < |rts| && !(id in actors && r == actors[id]) :: rts[r] == old(rts)[r]
    {
      if id !in actors { return false; }
      RequestClose(actors[id]);
      found := true;
    }

    /** RequestClose, for a loop that only needs to know who is closed. */
    method CloseOne(rid: Rid)
      requires rid < |rts|
      modifies this`rts
      ensures |rts| == |old(rts)| && rts[rid].Closed()
      ensures forall r | 0 <= r < |rts| && r != rid :: rts[r] == old(rts)[r]
    {
      RequestClose(rid);
    }

    /** closeGroup: stop new spawns, then close every runtime in the map. */
    method CloseGroup()
      requires Mapped(State()) && world.writer.Free? && !stop.Closing? && !stop.Stopping?
      modifies this
      ensures stop.Closed? && actors == old(actors)
      ensures old(stop) == Open ==> forall id | id in actors :: actors[id] < |rts| && rts[actors[id]].Closed()
    {
      if stop != Open { return; }
      stop := Stopping;
      stop := Closing(actors.Values);
      ghost var all := actors.Values;
      assert forall id | id in actors :: actors[id] in all;
      while stop.todo != {}
        invariant stop.Closing? && world.writer.Free? && actors == old(actors) && |rts| == |old(rts)|
        invariant stop.todo <= all
        invariant forall r | r in all :: r < |rts| && (rts[r].Closed() || r in stop.todo)
        decreases stop.todo
      {
        var rid :| rid in stop.todo;
        CloseOne(rid);
        stop := Closing(stop.todo - {rid});
      }
      stop := Stop.Closed;
    }

    /** count: the mapped runtimes that are not idle. */
    method Count() returns (n: int)
      ensures n == State().Count()
    {
      n := |actors| - idle;
    }

    /** One id of a list: a reference, if its runtime is open. */
    method HoldIfOpen(id: Id) returns (a: Option<Rid>)
      requires id in actors ==> actors[id] < |rts|
      modifies this`rts, this`world
      ensures a == if old(IsOpen(id)) then Some(actors[id]) else None
      ensures HeldMore(rts, world.holds, old(rts), old(world.holds))
      ensures a.Some? ==> a.value < |rts|
      ensures forall x | x in actors :: IsOpen(x) == old(IsOpen(x))
      ensures world.holds == if a.Some? then old(world.holds) + multiset{a.value} else old(world.holds)
    {
      if id !in actors || rts[actors[id]].Closed() { return None; }
      var rid := actors[id];
      var rt := rts[rid].(holder := rts[rid].holder + 1);
      rts := rts[rid := rt];
      world := world.(holds := world.holds + multiset{rid});
      a := Some(rid);
    }

    /** holdActors: under one read lock, a reference to each open runtime of the list, in
        order, and the ids that have none, in order. */
    method HoldActors(ids: seq<Id>) returns (values: seq<Rid>, notfound: seq<Id>)
      requires forall id | id in actors :: actors[id] < |rts|
      modifies this`rts, this`world
      ensures HeldMore(rts, world.holds, old(rts), old(world.holds))
      ensures values == Found(old(State()), ids) && notfound == Missing(old(State()), ids)
      ensures world.holds == TakeAll(old(world.holds), values) // old ones and one each: TakeAllCounts
    {
      values, notfound := [], [];
      var i := 0;
      ghost var g := State();
      LookStart(g, ids);
      assert forall id | id in actors :: IsOpen(id) == Up(g, id);
      while i < |ids|
        invariant 0 <= i <= |ids|
        invariant forall id | id in actors :: IsOpen(id) == Up(g, id)
        invariant HeldMore(rts, world.holds, old(rts), old(world.holds))
        invariant Looked(g, ids, i, values, notfound, world.holds)
      {
        LookStep(g, ids, i, values, notfound, world.holds);
        ghost var was, h := rts, world.holds;
        var a := HoldIfOpen(ids[i]);
        HeldTwice(rts, world.holds, was, h, old(rts), old(world.holds));
        if a.Some? {
          values := values + [a.value];
        } else {
          notfound := notfound + [ids[i]];
        }
        i := i + 1;
      }
      LookEnd(g, ids, values, notfound, world.holds);
    }
  }

  /** A reference kept by another actor: it stands for one hold until it is released. */
  class ActorRef {
    const g: ActorGroup
    var target: Option<Rid>

    constructor (g: ActorGroup, rid: Rid)
      ensures this.g == g && target == Some(rid)
    {
      this.g, target := g, Some(rid);
    }

    /** Release: idempotent; only the first one gives a reference back. */
    method Release()
      requires target.Some? ==> target.value < |g.rts| && g.world.holds[target.value] > 0
      modifies this, g`rts, g`world
      ensures target.None?
      ensures g.State() == if old(target).None? then old(g.State())
                           else ApplyToken(old(g.State()), old(target).value, TokenAct.Unhold)
    {
      if target.None? { return; }
      g.Unhold(target.value);
      target := None;
    }

    /** RefPost: refused once the target is closed; a send never meets a closed mailbox. */
    method Post(m: Msg, full: bool) returns (ok: bool)
      requires target.Some? && target.value < |g.rts| && g.world.holds[target.value] > 0
      requires RtOkAt(g.State(), target.value)
      modifies g`rts
      ensures ok <==> !old(g.rts)[target.value].Closed() && !full
      ensures g.State() == if ok then ApplyToken(old(g.State()), target.value, TokenAct.Send(m)) else old(g.State())
      ensures !old(g.State()).panicked ==> !g.State().panicked
    {
      if g.rts[target.value].Closed() { return false; }
      ok := g.Send(target.value, m, full);
    }
  }

  lemma SpawnSteps(g: Group, id: Id)
    requires Mapped(g) && g.Unlocked() && g.stop.Open?
    requires id in g.actors && g.rts[g.actors[id]].Closed() ==> !g.rts[g.actors[id]].Live()
    ensures Do(Do(g, SpawnEnter(id)), SpawnFind) == if Up(g, id) then g.(writer := Reuser(g.actors[id])) else Insert(g, id)
  {
    var h := g.(writer := Spawner(id));
    assert Do(g, SpawnEnter(id)) == h;
    assert Insert(h, id) == Insert(g, id);
  }

  /** Each runtime is as it was, but for its holder, which has moved by the references taken
      to it. */
  ghost predicate HeldMore(a: seq<Runtime>, h: multiset<Rid>, b: seq<Runtime>, k: multiset<Rid>) {
    |a| == |b| && forall r | 0 <= r < |a| ::
      a[r] == b[r].(holder := a[r].holder) && a[r].holder + k[r] == b[r].holder + h[r]
  }

  lemma HeldTwice(a: seq<Runtime>, h: multiset<Rid>, b: seq<Runtime>, k: multiset<Rid>, c: seq<Runtime>, l: multiset<Rid>)
    requires HeldMore(a, h, b, k) && HeldMore(b, k, c, l)
    ensures HeldMore(a, h, c, l)
  {
  }

  predicate Up(g: Group, id: Id) {
    id in g.actors && g.actors[id] < |g.rts| && !g.rts[g.actors[id]].Closed()
  }

  /** The runtimes a lookup of many ids finds, and the ids it does not find. */
  function Found(g: Group, ids: seq<Id>): seq<Rid>
    decreases |ids|
  {
    if ids == [] then [] else
    var rest := Found(g, ids[1..]);
    if Up(g, ids[0]) then [g.actors[ids[0]]] + rest else rest
  }

  function Missing(g: Group, ids: seq<Id>): seq<Id>
    decreases |ids|
  {
    if ids == [] then [] else
    var rest := Missing(g, ids[1..]);
    if Up(g, ids[0]) then rest else [ids[0]] + rest
  }

  /** A list is looked up id by id: an open runtime is found, anything else is missing. */
  lemma {:induction false} LookedUpOneByOne(g: Group, a: seq<Id>, b: seq<Id>, id: Id)
    ensures Found(g, a + b) == Found(g, a) + Found(g, b) && Missing(g, a + b) == Missing(g, a) + Missing(g, b)
    ensures if id in g.actors && g.actors[id] < |g.rts| && g.rts[g.actors[id]].closedBy == Nobody
            then Found(g, [id]) == [g.actors[id]] && Missing(g, [id]) == []
            else Found(g, [id]) == [] && Missing(g, [id]) == [id]
    decreases |a|
  {
    assert [id][1..] == [];
    if a == [] {
      assert a + b == b;
    } else {
      assert (a + b)[1..] == a[1..] + b;
      LookedUpOneByOne(g, a[1..], b, id);
    }
  }

  /** What the first i ids of a list have given, when `h` are the references out. */
  ghost predicate Looked(g: Group, ids: seq<Id>, i: nat, values: seq<Rid>, notfound: seq<Id>, h: multiset<Rid>)
    requires i <= |ids|
  {
    && values + Found(g, ids[i..]) == Found(g, ids)
    && notfound + Missing(g, ids[i..]) == Missing(g, ids)
    && TakeAll(h, Found(g, ids[i..])) == TakeAll(g.holds, Found(g, ids))
  }

  lemma LookStart(g: Group, ids: seq<Id>)
    ensures Looked(g, ids, 0, [], [], g.holds)
  {
    assert ids[0..] == ids;
  }

  lemma LookStep(g: Group, ids: seq<Id>, i: nat, values: seq<Rid>, notfound: seq<Id>, h: multiset<Rid>)
    requires i < |ids| && Looked(g, ids, i, values, notfound, h)
    ensures if Up(g, ids[i]) then
              Looked(g, ids, i + 1, values + [g.actors[ids[i]]], notfound, h + multiset{g.actors[ids[i]]})
            else
              Looked(g, ids, i + 1, values, notfound + [ids[i]], h)
  {
    assert ids[i..][1..] == ids[i + 1..];
    var rest := Found(g, ids[i + 1..]);
    assert Up(g, ids[i]) ==> ([g.actors[ids[i]]] + rest)[1..] == rest;
  }

  lemma LookEnd(g: Group, ids: seq<Id>, values: seq<Rid>, notfound: seq<Id>, h: multiset<Rid>)
    requires Looked(g, ids, |ids|, values, notfound, h)
    ensures values == Found(g, ids) && notfound == Missing(g, ids) && h == TakeAll(g.holds, values)
  {
  }

  /** The references out once one more is taken to each of a list. */
  ghost function TakeAll(h: multiset<Rid>, rids: seq<Rid>): multiset<Rid>
    decreases |rids|
  {
    if rids == [] then h else TakeAll(h + multiset{rids[0]}, rids[1..])
  }

  lemma {:induction false} TakeAllCounts(h: multiset<Rid>, rids: seq<Rid>)
    ensures TakeAll(h, rids) == h + multiset(rids)
    decreases |rids|
  {
    if rids != [] {
      TakeAllCounts(h + multiset{rids[0]}, rids[1..]);
      assert rids == [rids[0]] + rids[1..];
    }
  }
}
