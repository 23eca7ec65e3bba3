/**
 The timer table as actor/actor_control.go and actor/timer.go run it. Every method is
 proved to perform one step of module Timers; the search for a free id is proved here.
 */
module TimerObjects {
  import opened Timers

  const MAX_INT: int := 0x7FFF_FFFF_FFFF_FFFF
  const MIN_INT: int := -0x8000_0000_0000_0000

  /** The machine's addition: the largest integer is followed by the smallest. */
  function Inc(x: int): int {
    if x == MAX_INT then MIN_INT else x + 1
  }

  /** Any element of a set. */
  method Pick<T(==)>(s: set<T>) returns (x: T)
    requires s != {}
    ensures x in s
  {
    x :| x in s;
  }

  lemma {:induction false} SubsetSize<T>(a: set<T>, b: set<T>)
    requires a <= b
    ensures |a| <= |b|
    decreases a
  {
    if a != {} {
      var x :| x in a;
      SubsetSize(a - {x}, b - {x});
    }
  }

  /** The ids looked at before `id` by a search that began at `start`. */
  ghost predicate Seen(seen: set<int>, start: int, id: int, wrapped: bool) {
    if !wrapped then
      start <= id <= MAX_INT && (forall k :: k in seen <==> start <= k < id) && |seen| == id - start
    else
      1 <= id <= start && (forall k :: k in seen <==> start <= k <= MAX_INT || 1 <= k < id)
      && |seen| == MAX_INT - start + id
  }

  class ActorTimers {
    var ctx: Life
    var timers: map<int, Handle>
    var timerId: int
    var made: nat
    var armed: set<Stub>
    var mailbox: seq<Stub>
    ghost var ran: seq<Handle>
    ghost var ended: set<Handle>

    constructor ()
      ensures State() == START
    {
      ctx, timers, timerId, made, armed, mailbox, ran, ended := NoContext, map[], 0, 0, {}, [], [], {};
    }

    ghost function State(): World
      reads this
    {
      World(ctx, timers, made, armed, mailbox, ran, ended)
    }

    /** A new context: an empty table, ids from 0 again. */
    method Open()
      requires ctx == NoContext && timers == map[]
      modifies this`ctx, this`timerId
      ensures timerId == 0 && State() == Apply(old(State()), Op.Open)
    {
      ctx, timerId := Live, 0;
    }

    /**
     The next id: linear probing from the last one. With a table of fewer than MAX_INT
     timers it finds a free id. The wrap from MAX_INT to 1 is there to keep ids positive,
     and does unless the last id given was MAX_INT itself: then the search begins at the
     smallest integer, and from a negative id it goes on upwards, so that the next one is
     positive only if everything up to 0 is taken. From a start below 1 a table without a free
     id above it would be searched for ever, which the precondition excludes.
     */
    method NextId() returns (id: int)
      requires MIN_INT <= timerId <= MAX_INT
      requires 0 <= timerId < MAX_INT || |timers| < MAX_INT
      ensures MIN_INT <= id <= MAX_INT
      ensures |timers| < MAX_INT ==> id !in timers
      ensures id in timers ==> forall k | 1 <= k <= MAX_INT :: k in timers
      ensures 0 <= timerId < MAX_INT ==> 1 <= id
      ensures timerId == MAX_INT ==> id < 0
      ensures timerId < 0 ==> timerId < id && (id >= 1 <==> forall k | timerId < k <= 0 :: k in timers)
      ensures timerId < 0 ==> forall k | timerId < k < id :: k in timers
    {
      id := Inc(timerId);
      if id == MAX_INT {
        id := 1;
      }
      var start := id;
      ghost var seen: set<int>, wrapped := {}, false;
      while id in timers
        invariant Seen(seen, start, id, wrapped) && seen <= timers.Keys
        invariant start <= id || (wrapped && 1 <= start)
        invariant id == start ==> !wrapped
        decreases |timers| - |seen|
      {
        ghost var more := seen + {id};
        SubsetSize(more, timers.Keys);
        seen := more;
        if id == MAX_INT {
          assert |seen| == MAX_INT - start + 1;
          id := 1;
          wrapped := true;
        } else {
          id := id + 1;
        }
        if id == start { break; }
      }
      SubsetSize(seen, timers.Keys);
    }

    method Timer() returns (id: int)
      requires ctx != NoContext && MIN_INT <= timerId <= MAX_INT
      requires 0 <= timerId < MAX_INT || |timers| < MAX_INT
      modifies this
      ensures State() == Apply(old(State()), Op.Timer(id)) && timerId == id
      ensures |old(timers)| < MAX_INT ==> id !in old(timers)
    {
      id := NextId();
      timerId := id;
      ended := ended + if id in timers then {timers[id]} else {};
      timers := timers[id := made];
      armed := armed + {Stub(made, id)};
      made := made + 1;
    }

    /** True exactly if the timer was still to run; then it never will. */
    method StopTimer(id: int, caught: set<Stub>) returns (ok: bool)
      requires ctx != NoContext
      modifies this
      ensures State() == Apply(old(State()), Op.StopTimer(id, caught))
      ensures ok <==> id in old(timers)
      ensures ok ==> old(timers)[id] in ended
    {
      if id !in timers { return false; }
      armed := armed - caught;
      ended := ended + {timers[id]};
      timers := timers - {id};
      ok := true;
    }

    /** The clock's callback: it holds the runtime of the id, if there is one, and sends its
        message only if that is still the runtime it was made for. */
    method Fire(s: Stub, found: bool, same: bool, room: bool) returns (arrival: Arrival)
      requires s in armed
      modifies this`armed, this`mailbox
      ensures State() == Apply(old(State()), Op.Fire(s, arrival))
      ensures arrival == Queued <==> found && same && room
      ensures mailbox == if found && same && room then old(mailbox) + [s] else old(mailbox)
      ensures armed == old(armed) - {s}
    {
      armed := armed - {s};
      if !found { return NoRuntime; }
      if !same { return Respawned; }
      if !room { return MailFull; }
      mailbox := mailbox + [s];
      arrival := Queued;
    }

    /** The next timer message; `done` says its callback has run. */
    method Take() returns (done: bool)
      requires mailbox != [] && ctx != Quitting
      modifies this
      ensures State() == Apply(old(State()), Op.Take)
      ensures Inv(old(State())) ==> (done <==> old(mailbox)[0].handle !in old(ended))
    {
      var s := mailbox[0];
      assert Inv(State()) ==> Kept(State(), s);
      mailbox := mailbox[1..];
      if ctx == NoContext || s.id !in timers || timers[s.id] != s.handle { return false; }
      timers := timers - {s.id};
      ran := ran + [s.handle];
      ended := ended + {s.handle};
      done := true;
    }

    /** Stop and forget every timer, in any order; `reaches` says which clock timers had not
        fired yet. */
    method Clear(reaches: Stub -> bool) returns (ghost lapsed: set<Stub>)
      requires ctx == Live
      modifies this
      ensures State() == Apply(old(State()), Op.Clear(lapsed))
    {
      lapsed := {};
      ghost var w := State();
      while timers != map[]
        invariant ended + Handles(State()) == w.ended + Handles(w)
        invariant armed == w.armed - lapsed
        invariant ctx == Live && made == w.made && mailbox == w.mailbox && ran == w.ran
        decreases |timers|
      {
        assert timers.Keys != {};
        var id := Pick(timers.Keys);
        var s := Stub(timers[id], id);
        if reaches(s) {
          armed := armed - {s};
          lapsed := lapsed + {s};
        }
        Forget(State(), id);
        ended := ended + {timers[id]};
        timers := timers - {id};
      }
      ctx := Quitting;
    }

    /** The context is dropped once its OnQuit hook has returned. */
    method Gone()
      requires ctx == Quitting
      modifies this
      ensures State() == Apply(old(State()), Op.Gone)
    {
      ended := ended + Handles(State());
      ctx, timers := NoContext, map[];
    }
  }

  lemma Forget(w: World, id: int)
    requires id in w.timers
    ensures var v := w.(timers := w.timers - {id}, ended := w.ended + {w.timers[id]});
            && v.ended + Handles(v) == w.ended + Handles(w)
            && |v.timers| < |w.timers|
  {
    assert w.timers.Keys == (w.timers - {id}).Keys + {id};
  }
}
