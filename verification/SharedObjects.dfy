/**
 The store's entry and the reader's cache as objects: the handlers of shared/store.go and
 the methods of shared/reader.go. A handler of the store, run without interruption, is
 proved to be a run of the actions of module Shared, and its effect is stated outright.
 */
module SharedObjects {
  import opened Prelude
  import opened Shared

  /** One call of Reader.set. */
  datatype Snapshot = Snapshot(version: nat, value: Value, at: Time, ttl: Time)

  /** Of all the snapshots a cache was ever given, the first of the highest version. */
  ghost predicate Newest(given: seq<Snapshot>, k: nat) {
    && k < |given|
    && (forall j | 0 <= j < |given| :: given[j].version <= given[k].version)
    && (forall j | 0 <= j < k :: given[j].version < given[k].version)
  }

  lemma NewestUnique(given: seq<Snapshot>, j: nat, k: nat)
    requires Newest(given, j) && Newest(given, k)
    ensures j == k
  {
    if j < k {
      assert given[j].version < given[k].version;
    }
    assert given[j].version == given[k].version;
  }

  /** Reader.entry of one key. */
  class CacheEntry {
    var loaded: bool
    var version: nat
    var value: Value
    var at: Time
    var ttl: Time
    ghost var given: seq<Snapshot> // history: every call of set
    ghost var winner: nat

    constructor ()
      ensures Valid() && given == []
    {
      loaded, version, value, at, ttl, given, winner := false, 0, 0, 0, 0, [], 0;
    }

    /** The cache holds the newest of everything it was given. */
    ghost predicate Valid()
      reads this
    {
      if loaded then Newest(given, winner) && given[winner] == Snapshot(version, value, at, ttl) else given == []
    }

    /** Reader.set: only a newer version replaces what is cached. */
    method Set(version: nat, value: Value, ttl: Time, now: Time)
      requires Valid()
      modifies this
      ensures Valid() && loaded && given == old(given) + [Snapshot(version, value, now, ttl)]
      ensures forall c: Cache | c.loaded == old(loaded) && c.version == old(this.version) && c.value == old(this.value) ::
                Shared.Set(c, version, value) == c.(loaded := true, version := this.version, value := this.value)
    {
      ghost var n := |given|;
      given := given + [Snapshot(version, value, now, ttl)];
      if loaded && version <= this.version { return; }
      this.value, this.version, loaded, at, this.ttl := value, version, true, now, ttl;
      winner := n;
      assert given[n].version == version;
    }

    /** cacheGet: a miss if the cache was never given anything; else the newest value it was
        ever given, whatever order it came in, as long as that one's time to live lasts. */
    method CacheGet(now: Time) returns (v: Option<Value>)
      requires Valid()
      ensures given == [] ==> v == None
      ensures forall k: nat | Newest(given, k) ::
                v == if given[k].ttl > 0 && now - given[k].at > given[k].ttl then None else Some(given[k].value)
    {
      if loaded {
        forall k: nat | Newest(given, k) ensures k == winner {
          NewestUnique(given, k, winner);
        }
      }
      if !loaded || (ttl > 0 && now - at > ttl) { return None; }
      v := Some(value);
    }
  }

  /** What becomes of a refresh for one reader. */
  datatype Kind = Late | Direct | Missing

  function Classify(behind: bool, isUp: bool, isBusy: bool): Kind {
    if behind || (isUp && isBusy) then Late else if isUp then Direct else Missing
  }

  class Store {
    const cd: Time
    var e: Entry
    var queued: multiset<Push>
    ghost var world: System // everything else: the readers, the mailboxes, the history

    constructor (cd: Time)
      ensures State() == NEW && this.cd == cd
    {
      this.cd, e, queued, world := cd, NEW.e, multiset{}, NEW;
    }

    ghost function State(): System
      reads this
    {
      world.(e := e, queued := queued)
    }

    /** One send of a refresh. */
    method SendOne(r: Reader, isUp: bool, isBusy: bool) returns (kind: Kind)
      requires world.sending && r in world.todo && isUp == Get(world, r).up
      modifies this`queued, this`world
      ensures State() == ApplySend(old(State()), r, isBusy)
      ensures kind == Classify(WaitsFor(old(queued), r), isUp, isBusy)
    {
      var push := Push(r, e.version, e.value);
      kind := Classify(WaitsFor(queued, r), isUp, isBusy);
      world := world.(todo := world.todo - {r});
      match kind
      case Late => queued := queued + multiset{push};
      case Direct => world := world.(inflight := world.inflight + multiset{push});
      case Missing => world := world.(gone := world.gone + {r});
    }

    /** SendOne, for a loop that only needs the fields it changes. */
    method SendStep(r: Reader, isUp: bool, isBusy: bool) returns (kind: Kind)
      requires world.sending && r in world.todo && isUp == Get(world, r).up
      modifies this`queued, this`world
      ensures kind == Classify(WaitsFor(old(queued), r), isUp, isBusy)
      ensures world.sending && world.todo == old(world).todo - {r} && world.readers == old(world).readers
      ensures queued == if kind.Late? then old(queued) + multiset{Push(r, e.version, e.value)} else old(queued)
      ensures old(world).inflight <= world.inflight
      ensures kind.Direct? ==> Push(r, e.version, e.value) in world.inflight
    {
      kind := SendOne(r, isUp, isBusy);
    }

    /** What a refresh has done for the readers it has reached. */
    ghost predicate Reached(kinds: map<Reader, Kind>, before: multiset<Push>, up: set<Reader>, busy: Reader -> bool)
      reads this
    {
      ReachedIn(kinds, before, up, busy, e, queued, world.inflight)
    }

    /** The loop of sendRefresh: one push of the present version to every subscriber; `Late`
        ones go through the queue, because something is queued for them already or they are
        busy. */
    method SendEach(up: set<Reader>, busy: Reader -> bool) returns (kinds: map<Reader, Kind>)
      requires world.sending && world.todo == e.subs
      requires forall r | r in e.subs :: r in up <==> Get(world, r).up
      modifies this`queued, this`world
      ensures world.todo == {}
      ensures kinds.Keys == e.subs && Reached(kinds, old(queued), up, busy)
    {
      var left := e.subs;
      kinds := map[];
      while left != {}
        invariant world.sending && world.todo == left <= e.subs
        invariant world.readers == old(world).readers
        invariant kinds.Keys == e.subs - left
        invariant SameBehind(queued, old(queued), left)
        invariant ReachedIn(kinds, old(queued), up, busy, e, queued, world.inflight)
        decreases left
      {
        var r :| r in left;
        ghost var q, f := queued, world.inflight;
        var kind := SendStep(r, r in up, busy(r));
        BehindNext(q, old(queued), left, Push(r, e.version, e.value));
        ReachedNext(kinds, old(queued), up, busy, e, q, f, queued, world.inflight, r, kind);
        left := left - {r};
        kinds := kinds[r := kind];
      }
    }

    /** sendRefresh: reach every subscriber; those not found are unsubscribed. */
    method SendRefresh(up: set<Reader>, busy: Reader -> bool) returns (kinds: map<Reader, Kind>)
      requires world.sending && world.todo == e.subs && world.gone == {}
      requires forall r | r in e.subs :: r in up <==> Get(world, r).up
      modifies this
      ensures !world.sending && world.todo == {} && world.gone == {}
      ensures kinds.Keys == old(e.subs) && Reached(kinds, old(queued), up, busy)
      ensures e == old(e).(subs := set r | r in kinds && !kinds[r].Missing?)
    {
      kinds := SendEach(up, busy);
      e := e.(subs := set r | r in kinds && !kinds[r].Missing?);
      world := world.(sending := false, gone := {});
    }

    /** scheduleRefresh: start a refresh at once, or leave it to a push timer. */
    method ScheduleRefresh(now: Time)
      modifies this`e, this`world
      ensures State() == Schedule(old(State()), cd, now)
    {
      if e.pending { return; }
      if cd <= 0 || e.lastSent.None? || now - e.lastSent.value >= cd {
        BeginRefresh(now);
      } else {
        e := e.(pending := true, due := e.lastSent.value + cd);
      }
    }

    /** The start of sendRefresh. */
    method BeginRefresh(now: Time)
      modifies this`e, this`world
      ensures State() == Begin(old(State()), now)
    {
      if !e.bound { return; }
      e := e.(lastSent := Some(now));
      world := world.(sending := true, todo := e.subs, sends := world.sends + [now]);
    }

    /** The publish handler, up to the refresh it may start. */
    method Publish(v: Value, now: Time)
      requires Enabled(State(), Action.Publish(v, now))
      modifies this`e, this`world
      ensures e.value == v && e.version == old(e.version) + 1
      ensures State() == Apply(old(State()), Action.Publish(v, now), cd)
    {
      e := e.(version := e.version + 1, value := v);
      world := world.(clock := now, hist := world.hist + [v]);
      ScheduleRefresh(now);
    }

    /** The push timer. */
    method TimerFires(now: Time)
      requires Enabled(State(), Action.TimerFires(now))
      modifies this`e, this`world
      ensures State() == Apply(old(State()), Action.TimerFires(now), cd)
    {
      e := e.(pending := false);
      world := world.(clock := now);
      BeginRefresh(now);
    }

    /** The subscribe handler: list the reader, answer with a snapshot if there is one. */
    method Subscribe(r: Reader) returns (reply: Option<(nat, Value)>)
      requires Enabled(State(), Action.Subscribe(r, true))
      modifies this`e, this`world
      ensures State() == Apply(old(State()), Action.Subscribe(r, true), cd)
      ensures e == old(e).(subs := old(e.subs) + {r}, bound := true)
      ensures reply == if e.version > 0 then Some((e.version, e.value)) else None
    {
      ghost var c := Get(world, r);
      e := e.(subs := e.subs + {r}, bound := true);
      reply := if e.version > 0 then Some((e.version, e.value)) else None;
      world := world.(asks := world.asks - multiset{r});
      if c.wait.Asked? {
        world := world.(readers := world.readers[r := c.(wait := if e.version > 0 then Replied(e.version, e.value) else NoCall)]);
      }
    }

    /** The fetch handler. */
    method Fetch() returns (v: Option<Value>)
      ensures v == Shared.Fetch(State())
    {
      v := if e.version == 0 then None else Some(e.value);
    }
  }

  /** What a refresh has done for some readers, with these pushes queued and under way. */
  ghost predicate ReachedIn(kinds: map<Reader, Kind>, before: multiset<Push>, up: set<Reader>, busy: Reader -> bool,
                            e: Entry, queued: multiset<Push>, inflight: multiset<Push>)
  {
    forall r | r in kinds ::
      && kinds[r] == Classify(WaitsFor(before, r), r in up, busy(r))
      && (kinds[r].Late? ==> Push(r, e.version, e.value) in queued)
      && (kinds[r].Direct? ==> Push(r, e.version, e.value) in inflight)
  }

  lemma ReachedNext(kinds: map<Reader, Kind>, before: multiset<Push>, up: set<Reader>, busy: Reader -> bool, e: Entry,
                    q: multiset<Push>, f: multiset<Push>, q1: multiset<Push>, f1: multiset<Push>, r: Reader, kind: Kind)
    requires ReachedIn(kinds, before, up, busy, e, q, f) && q <= q1 && f <= f1
    requires kind == Classify(WaitsFor(before, r), r in up, busy(r))
    requires kind.Late? ==> Push(r, e.version, e.value) in q1
    requires kind.Direct? ==> Push(r, e.version, e.value) in f1
    ensures ReachedIn(kinds[r := kind], before, up, busy, e, q1, f1)
  {
  }

  /** The same of these readers have something queued. */
  ghost predicate SameBehind(queue: multiset<Push>, before: multiset<Push>, readers: set<Reader>) {
    forall r | r in readers :: WaitsFor(queue, r) == WaitsFor(before, r)
  }

  /** A push queued for one reader puts no other behind. */
  lemma BehindNext(queue: multiset<Push>, before: multiset<Push>, left: set<Reader>, p: Push)
    requires SameBehind(queue, before, left)
    ensures SameBehind(queue, before, left - {p.reader})
    ensures SameBehind(queue + multiset{p}, before, left - {p.reader})
  {
    forall q | q in left - {p.reader} ensures WaitsFor(queue + multiset{p}, q) == WaitsFor(queue, q) {
      assert forall x :: x in queue + multiset{p} <==> x in queue || x == p;
    }
  }
}
