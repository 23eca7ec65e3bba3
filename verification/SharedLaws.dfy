/** Coherence of the reader caches and the rate of pushes, over every run. */
module SharedLaws {
  import opened Prelude
  import opened Shared

  /** A pair the store has really published. */
  predicate Published(s: System, version: nat, value: Value) {
    1 <= version <= |s.hist| && s.hist[version - 1] == value
  }

  function Waiting(s: System): multiset<Push> {
    s.queued + s.inflight
  }

  /** A reader the store counts as a subscriber, and is not about to drop. */
  predicate Listed(s: System, r: Reader) {
    r in s.e.subs && r !in s.gone
  }

  /** The reader is at the store's version, or a push of that version is on its way to it,
      or one is certain to follow. */
  predicate Fresh(s: System, r: Reader, version: nat) {
    || version == s.e.version
    || Current(s, r) in s.queued
    || Current(s, r) in s.inflight
    || s.e.pending
    || r in s.todo
  }

  /** The store and the refresh it may be sending. */
  predicate StoreOk(s: System) {
    && |s.hist| == s.e.version
    && (s.e.version > 0 ==> s.hist[s.e.version - 1] == s.e.value)
    && (s.sending || s.e.pending ==> s.e.version > 0)
    && s.todo <= s.e.subs && s.gone <= s.e.subs && s.todo !! s.gone
    && (!s.sending ==> s.todo == {} && s.gone == {})
    && (s.e.subs != {} ==> s.e.bound)
  }

  /** A waiting push was really published and its reader, if it can still take it, is on
      the subscriber list. */
  predicate PushOk(s: System, p: Push) {
    && (p in s.queued || p in s.inflight ==> Published(s, p.version, p.value))
    && (p in s.queued || (p in s.inflight && Get(s, p.reader).up) ==> Listed(s, p.reader))
  }

  /** Every cached pair was published; whoever holds one is on the list; and a cache that a
      Watch of its own life has filled is coherent. */
  predicate ReaderOk(s: System, r: Reader) {
    var c := Get(s, r);
    && (c.ctx ==> c.up) && (!c.wait.NoCall? ==> c.ctx)
    && (c.loaded ==> Published(s, c.version, c.value))
    && (c.wait.Replied? ==> Published(s, c.wait.version, c.wait.value))
    && (c.loaded || c.wait.Replied? || c.watched ==> c.ctx && Listed(s, r))
    && (c.loaded && c.wait.Replied? ==> c.version <= c.wait.version)
    && (c.watched ==> c.loaded && Fresh(s, r, c.version))
    && (c.wait.Replied? ==> Fresh(s, r, c.wait.version))
  }

  ghost predicate Inv(s: System) {
    && StoreOk(s)
    && (forall p :: PushOk(s, p))
    && (forall r :: ReaderOk(s, r))
  }

  lemma NewInv()
    ensures Inv(NEW)
  {
  }

  // ------------------------------------------------------------ step by step

  lemma ScheduleStore(s: System, now: Time, cd: Time)
    requires StoreOk(s) && !s.sending && s.e.version > 0
    ensures StoreOk(Schedule(s, cd, now)) && StoreOk(Begin(s, now))
  {
  }

  lemma SendStore(s: System, r: Reader, busy: bool)
    requires StoreOk(s) && Enabled(s, SendOne(r, busy))
    ensures StoreOk(ApplySend(s, r, busy))
  {
  }

  lemma SubscribeStore(s: System, r: Reader, arrives: bool)
    requires StoreOk(s) && !s.sending
    ensures StoreOk(ApplySubscribe(s, r, arrives))
  {
  }

  lemma MailStore(s: System, p: Push, busy: bool)
    requires StoreOk(s) && p in s.queued + s.inflight
    ensures StoreOk(ApplyRetry(s, p, busy)) && StoreOk(ApplyDeliver(s, p))
  {
  }

  /** A reader's own step leaves the store alone. */
  lemma ReaderStore(s: System, a: Action)
    requires a.Rise? || a.Awake? || a.Forget? || a.Die? || a.TakeReply? || a.GiveUp?
    requires StoreOk(s) && Enabled(s, a)
    ensures StoreOk(ApplyReader(s, a))
  {
    var t := ApplyReader(s, a);
    assert t == s.(readers := t.readers);
  }

  lemma StoreKeeps(s: System, a: Action, cd: Time)
    requires StoreOk(s) && Enabled(s, a)
    ensures StoreOk(Apply(s, a, cd))
  {
    match a
    case Publish(v, now) =>
      ScheduleStore(s.(e := s.e.(version := s.e.version + 1, value := v), clock := now, hist := s.hist + [v]), now, cd);
    case TimerFires(now) => ScheduleStore(s.(e := s.e.(pending := false), clock := now), now, cd);
    case SendOne(r, busy) => SendStore(s, r, busy);
    case SendEnd =>
    case Subscribe(r, arrives) => SubscribeStore(s, r, arrives);
    case Retry(p, busy) => MailStore(s, p, busy);
    case Deliver(p) => MailStore(s, p, false);
    case AskStore(_) =>
    case _ => ReaderStore(s, a);
  }

  /** What one step needs to know about a push p and a reader r to keep them right. */
  predicate Local(s: System, p: Push, r: Reader) {
    StoreOk(s) && PushOk(s, p) && ReaderOk(s, p.reader) && ReaderOk(s, r)
  }

  predicate Kept(h: System, p: Push, r: Reader) {
    PushOk(h, p) && ReaderOk(h, r)
  }

  lemma PublishKeeps(s: System, v: Value, now: Time, cd: Time, p: Push, r: Reader)
    requires Local(s, p, r) && Enabled(s, Publish(v, now))
    ensures Kept(Apply(s, Publish(v, now), cd), p, r)
  {
    var h := Apply(s, Publish(v, now), cd);
    assert Get(h, r) == Get(s, r) && Get(h, p.reader) == Get(s, p.reader);
    assert h.e.pending || h.todo == h.e.subs;
  }

  lemma TimerKeeps(s: System, now: Time, cd: Time, p: Push, r: Reader)
    requires Local(s, p, r) && Enabled(s, TimerFires(now))
    ensures Kept(Apply(s, TimerFires(now), cd), p, r)
  {
    var h := Apply(s, TimerFires(now), cd);
    assert Get(h, r) == Get(s, r) && Get(h, p.reader) == Get(s, p.reader);
    assert h.todo == h.e.subs;
  }

  lemma SendKeeps(s: System, q: Reader, busy: bool, p: Push, r: Reader)
    requires Local(s, p, r) && ReaderOk(s, q) && Enabled(s, SendOne(q, busy))
    ensures Kept(ApplySend(s, q, busy), p, r)
  {
    var h := ApplySend(s, q, busy);
    assert Get(h, r) == Get(s, r) && Get(h, p.reader) == Get(s, p.reader);
    assert p in s.queued && p.reader == q ==> Queued(s, q);
    assert Current(s, q) in h.queued || Current(s, q) in h.inflight || (q in h.gone && !Get(s, q).up);
  }

  lemma SendEndKeeps(s: System, p: Push, r: Reader, cd: Time)
    requires Local(s, p, r) && Enabled(s, SendEnd)
    ensures Kept(Apply(s, SendEnd, cd), p, r)
  {
    var h := Apply(s, SendEnd, cd);
    assert Get(h, r) == Get(s, r) && Get(h, p.reader) == Get(s, p.reader);
  }

  /** What a subscribe does to the reader that asked. */
  lemma SubscribedOk(s: System, q: Reader, arrives: bool)
    requires StoreOk(s) && ReaderOk(s, q) && Enabled(s, Subscribe(q, arrives))
    ensures ReaderOk(ApplySubscribe(s, q, arrives), q)
  {
  }

  lemma SubscribeKeeps(s: System, q: Reader, arrives: bool, p: Push, r: Reader)
    requires Local(s, p, r) && ReaderOk(s, q) && Enabled(s, Subscribe(q, arrives))
    ensures Kept(ApplySubscribe(s, q, arrives), p, r)
  {
    var h := ApplySubscribe(s, q, arrives);
    SubscribedOk(s, q, arrives);
    assert r != q ==> Get(h, r) == Get(s, r);
    assert Get(h, p.reader).up == Get(s, p.reader).up;
  }

  lemma RetryKeeps(s: System, q: Push, busy: bool, p: Push, r: Reader)
    requires Local(s, p, r) && PushOk(s, q) && ReaderOk(s, q.reader) && Enabled(s, Retry(q, busy))
    ensures Kept(ApplyRetry(s, q, busy), p, r)
  {
    var h := ApplyRetry(s, q, busy);
    assert Get(h, r) == Get(s, r) && Get(h, p.reader) == Get(s, p.reader);
    assert Current(s, r) in s.queued ==> Current(s, r) in h.queued || Current(s, r) in h.inflight || !Get(s, r).up;
  }

  lemma AskKeeps(s: System, q: Reader, p: Push, r: Reader, cd: Time)
    requires Local(s, p, r) && ReaderOk(s, q) && Enabled(s, AskStore(q))
    ensures Kept(Apply(s, AskStore(q), cd), p, r)
  {
    var h := Apply(s, AskStore(q), cd);
    assert r != q ==> Get(h, r) == Get(s, r);
    assert Get(h, p.reader).up == Get(s, p.reader).up;
  }

  /** A reader's own step, seen from that reader. */
  lemma OwnStepOk(s: System, a: Action)
    requires StoreOk(s) && Enabled(s, a)
    requires a.Rise? || a.Awake? || a.Forget? || a.Die? || a.TakeReply? || a.GiveUp?
    requires ReaderOk(s, a.reader)
    ensures ReaderOk(ApplyReader(s, a), a.reader)
  {
  }

  lemma ReaderStepKeeps(s: System, a: Action, p: Push, r: Reader)
    requires Local(s, p, r) && Enabled(s, a)
    requires a.Rise? || a.Awake? || a.Forget? || a.Die? || a.TakeReply? || a.GiveUp?
    requires ReaderOk(s, a.reader)
    ensures Kept(ApplyReader(s, a), p, r)
  {
    var h := ApplyReader(s, a);
    OwnStepOk(s, a);
    assert h.e == s.e && h.queued == s.queued && h.inflight == s.inflight && h.todo == s.todo;
    assert r != a.reader ==> Get(h, r) == Get(s, r);
    assert Get(h, p.reader).up ==> Get(s, p.reader).up || a.Rise?;
  }

  lemma DeliverKeeps(s: System, q: Push, p: Push, r: Reader)
    requires Local(s, p, r) && PushOk(s, q) && ReaderOk(s, q.reader) && Enabled(s, Deliver(q))
    ensures Kept(ApplyDeliver(s, q), p, r)
  {
    var h := ApplyDeliver(s, q);
    assert r != q.reader ==> Get(h, r) == Get(s, r);
    assert Get(h, p.reader).up == Get(s, p.reader).up;
    assert Current(s, r) in s.inflight && Current(s, r) != q ==> Current(s, r) in h.inflight;
  }

  lemma StepKeeps(s: System, a: Action, cd: Time)
    requires Inv(s) && Enabled(s, a)
    ensures Inv(Apply(s, a, cd))
  {
    StoreKeeps(s, a, cd);
    forall p, r ensures Kept(Apply(s, a, cd), p, r) {
      assert PushOk(s, p) && ReaderOk(s, r) && ReaderOk(s, p.reader);
      match a
      case Publish(v, now) => PublishKeeps(s, v, now, cd, p, r);
      case TimerFires(now) => TimerKeeps(s, now, cd, p, r);
      case SendOne(q, busy) => SendKeeps(s, q, busy, p, r);
      case SendEnd => SendEndKeeps(s, p, r, cd);
      case Subscribe(q, arrives) => SubscribeKeeps(s, q, arrives, p, r);
      case Retry(q, busy) => RetryKeeps(s, q, busy, p, r);
      case AskStore(q) => AskKeeps(s, q, p, r, cd);
      case Deliver(q) => DeliverKeeps(s, q, p, r);
      case _ => ReaderStepKeeps(s, a, p, r);
    }
    assert forall p :: Kept(Apply(s, a, cd), p, 0) ==> PushOk(Apply(s, a, cd), p);
    assert forall r :: Kept(Apply(s, a, cd), Push(0, 0, 0), r) ==> ReaderOk(Apply(s, a, cd), r);
  }

  lemma {:induction false} RunKeeps(s: System, acts: seq<Action>, cd: Time)
    requires Inv(s) && Runs(s, acts, cd)
    ensures Inv(After(s, acts, cd))
    decreases |acts|
  {
    if acts != [] {
      StepKeeps(s, acts[0], cd);
      RunKeeps(Apply(s, acts[0], cd), acts[1..], cd);
    }
  }
}
