/**
 Versioned publish/subscribe for one key (shared/store.go, shared/reader.go): the store
 with its coalescing push timer, the pushes under way or waiting in the store's postpone
 queue, and the caches of the readers, which come and go.

 The store handles one request at a time; a refresh is sent reader by reader, and readers
 act between any two sends. Nothing here unpublishes, sweeps or invalidates the key.
 */
module Shared {
  import opened Prelude

  type Reader = nat
  type Value = int
  type Time = int

  datatype Push = Push(reader: Reader, version: nat, value: Value)

  datatype Wait = NoCall | Asked | Replied(version: nat, value: Value)

  /** A reader actor. `up`: its runtime is in the group's map and open. `ctx`: it has a
      context, whose state holds the cache. `watched`: a Watch of this context has been
      answered (history). */
  datatype Cache = Cache(up: bool, ctx: bool, loaded: bool, version: nat, value: Value, wait: Wait, watched: bool)

  const DOWN: Cache := Cache(false, false, false, 0, 0, NoCall, false)

  /** The store's entry for the key. */
  datatype Entry = Entry(
    version: nat,
    value: Value,
    pending: bool,
    due: Time,                 // when the pending push timer may fire
    lastSent: Option<Time>,
    bound: bool,               // some reader group has ever subscribed
    subs: set<Reader>)

  datatype System = System(
    e: Entry,
    clock: Time,
    sending: bool,             // a refresh is being sent
    todo: set<Reader>,         // the readers it has yet to reach
    gone: set<Reader>,         // the readers it did not find
    queued: multiset<Push>,    // the store's postpone queue
    inflight: multiset<Push>,  // accepted by the reader's mailbox
    asks: multiset<Reader>,    // subscribe requests waiting at the store
    readers: map<Reader, Cache>,
    hist: seq<Value>,          // history: the values published, version 1 first
    sends: seq<Time>)          // history: when refreshes were sent

  const NEW: System :=
    System(Entry(0, 0, false, 0, None, false, {}), 0, false, {}, {}, multiset{}, multiset{}, multiset{}, map[], [], [])

  function Get(s: System, r: Reader): Cache {
    if r in s.readers then s.readers[r] else DOWN
  }

  datatype Action =
    // the store
    | Publish(value: Value, now: Time)
    | TimerFires(now: Time)
    | SendOne(reader: Reader, busy: bool)
    | SendEnd
    | Subscribe(reader: Reader, arrives: bool)
    | Retry(push: Push, busy: bool)
    // a reader
    | Rise(reader: Reader)
    | Awake(reader: Reader)
    | Forget(reader: Reader)
    | Die(reader: Reader)
    | AskStore(reader: Reader)
    | TakeReply(reader: Reader)
    | GiveUp(reader: Reader)
    | Deliver(push: Push)

  predicate Cooled(e: Entry, cd: Time, now: Time) {
    cd <= 0 || e.lastSent.None? || now - e.lastSent.value >= cd
  }

  predicate Enabled(s: System, a: Action) {
    match a
    case Publish(_, now) => !s.sending && now >= s.clock
    case TimerFires(now) => !s.sending && s.e.pending && now >= s.clock && now >= s.e.due
    case SendOne(r, busy) => s.sending && r in s.todo
    case SendEnd => s.sending && s.todo == {}
    case Subscribe(r, _) => !s.sending && s.asks[r] > 0
    case Retry(p, _) => p in s.queued
    case Rise(r) => !Get(s, r).up && forall p | p in s.inflight :: p.reader != r // the old runtime is done with its mail
    case Awake(r) => Get(s, r).up && !Get(s, r).ctx
    case Forget(r) => Get(s, r).ctx
    case Die(r) => Get(s, r).up
    case AskStore(r) => Get(s, r).ctx && Get(s, r).wait.NoCall?
    case TakeReply(r) => Get(s, r).wait.Replied?
    case GiveUp(r) => !Get(s, r).wait.NoCall?
    case Deliver(p) => p in s.inflight && Get(s, p.reader).wait.NoCall?
  }

  /** sendRefresh begins: nothing to do without a subscriber group. */
  function Begin(s: System, now: Time): System {
    if !s.e.bound then s
    else s.(e := s.e.(lastSent := Some(now)), sending := true, todo := s.e.subs, sends := s.sends + [now])
  }

  /** scheduleRefresh: at most one push timer, and none while the cooldown is over. */
  function Schedule(s: System, cd: Time, now: Time): System {
    if s.e.pending then s
    else if Cooled(s.e, cd, now) then Begin(s, now)
    else s.(e := s.e.(pending := true, due := s.e.lastSent.value + cd))
  }

  /** Reader.set: a version not above the cached one is dropped. */
  function Set(c: Cache, version: nat, value: Value): Cache {
    if c.loaded && version <= c.version then c
    else c.(loaded := true, version := version, value := value)
  }

  predicate WaitsFor(queue: multiset<Push>, r: Reader) {
    exists p | p in queue :: p.reader == r
  }

  predicate Queued(s: System, r: Reader) {
    WaitsFor(s.queued, r)
  }

  function Put(s: System, r: Reader, c: Cache): System {
    s.(readers := s.readers[r := c])
  }

  function One(p: Push): multiset<Push> {
    multiset{p}
  }

  function Current(s: System, r: Reader): Push {
    Push(r, s.e.version, s.e.value)
  }

  /** One send of a refresh: behind what is queued for the reader, or directly. */
  function ApplySend(s: System, r: Reader, busy: bool): System {
    var s1 := s.(todo := s.todo - {r});
    if Queued(s, r) || (Get(s, r).up && busy) then s1.(queued := s.queued + One(Current(s, r)))
    else if Get(s, r).up then s1.(inflight := s.inflight + One(Current(s, r)))
    else s1.(gone := s.gone + {r})
  }

  /** A retry of the postpone queue: still busy, accepted, or dropped as not found. */
  function ApplyRetry(s: System, p: Push, busy: bool): System {
    if Get(s, p.reader).up && busy then s
    else
      var s1 := s.(queued := s.queued - One(p));
      if Get(s, p.reader).up then s1.(inflight := s.inflight + One(p)) else s1
  }

  function ApplySubscribe(s: System, r: Reader, arrives: bool): System {
    var s1 := s.(e := s.e.(subs := s.e.subs + {r}, bound := true), asks := s.asks - multiset{r});
    var c := Get(s, r);
    if c.wait.Asked? && arrives then
      Put(s1, r, c.(wait := if s.e.version > 0 then Replied(s.e.version, s.e.value) else NoCall))
    else s1
  }

  function ApplyReader(s: System, a: Action): System
    requires a.Rise? || a.Awake? || a.Forget? || a.Die? || a.TakeReply? || a.GiveUp?
    requires Enabled(s, a)
  {
    var c := Get(s, a.reader);
    Put(s, a.reader,
      match a
      case Rise(_) => DOWN.(up := true)
      case Awake(_) => DOWN.(up := true, ctx := true)
      case Forget(_) => DOWN.(up := true)
      case Die(_) => DOWN
      case TakeReply(_) => Set(c, c.wait.version, c.wait.value).(wait := NoCall, watched := true)
      case _ => c.(wait := NoCall))
  }

  /** A push reaches the reader's handler; without a context it is not allowed to spawn
      one and is dropped, and so it is if the runtime has died with it unread. */
  function ApplyDeliver(s: System, p: Push): System {
    var s1 := s.(inflight := s.inflight - One(p));
    var c := Get(s, p.reader);
    if c.up && c.ctx then Put(s1, p.reader, Set(c, p.version, p.value)) else s1
  }

  function Apply(s: System, a: Action, cd: Time): System
    requires Enabled(s, a)
  {
    match a
    case Publish(v, now) =>
      Schedule(s.(e := s.e.(version := s.e.version + 1, value := v), clock := now, hist := s.hist + [v]), cd, now)
    case TimerFires(now) => Begin(s.(e := s.e.(pending := false), clock := now), now)
    case SendOne(r, busy) => ApplySend(s, r, busy)
    case SendEnd => s.(e := s.e.(subs := s.e.subs - s.gone), sending := false, gone := {})
    case Subscribe(r, arrives) => ApplySubscribe(s, r, arrives)
    case Retry(p, busy) => ApplyRetry(s, p, busy)
    case AskStore(r) => Put(s, r, Get(s, r).(wait := Asked)).(asks := s.asks + multiset{r})
    case Deliver(p) => ApplyDeliver(s, p)
    case _ => ApplyReader(s, a)
  }

  predicate Runs(s: System, acts: seq<Action>, cd: Time)
    decreases |acts|
  {
    acts == [] || (Enabled(s, acts[0]) && Runs(Apply(s, acts[0], cd), acts[1..], cd))
  }

  function After(s: System, acts: seq<Action>, cd: Time): System
    requires Runs(s, acts, cd)
    decreases |acts|
  {
    if acts == [] then s else After(Apply(s, acts[0], cd), acts[1..], cd)
  }

  // ------------------------------------------------------------ what readers see

  /** Fetch: the value the store holds, if it has one. */
  function Fetch(s: System): Option<Value> {
    if s.e.version == 0 then None else Some(s.e.value)
  }

  /** Watch with the store reachable: the cache if it is loaded and has not expired, else a
      subscription and the store's answer. */
  function Watch(s: System, r: Reader, expired: bool): Option<Value> {
    if Get(s, r).loaded && !expired then Some(Get(s, r).value) else Fetch(s)
  }
}
