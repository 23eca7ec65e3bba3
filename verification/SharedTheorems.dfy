/** The promises of the shared store, over every run from an unpublished key. */
module SharedTheorems {
  import opened Prelude
  import opened Shared
  import opened SharedLaws

  /** Nothing is under way and nothing is scheduled. */
  predicate Quiescent(s: System) {
    s.queued == multiset{} && s.inflight == multiset{} && !s.e.pending && !s.sending
  }

  /**
   Coherence. Whatever dies, is reborn, is lost or is reordered: a loaded cache holds a pair
   that was published, not newer than the store's; and the cache of a reader that has been
   answered by a Watch in its present life is at the store's version, or a push of that
   version is on its way to it, or the push timer is running or the refresh has yet to
   reach it. So once everything is quiet its Watch and a Fetch agree, expired or not.
   */
  lemma Coherence(acts: seq<Action>, cd: Time, r: Reader, expired: bool)
    requires Runs(NEW, acts, cd)
    ensures var s := After(NEW, acts, cd);
            var c := Get(s, r);
            && (c.loaded ==> Published(s, c.version, c.value) && c.version <= s.e.version && r in s.e.subs)
            && (c.watched ==> c.loaded && Fresh(s, r, c.version))
            && (Quiescent(s) && c.watched ==> c.version == s.e.version && Watch(s, r, expired) == Fetch(s))
  {
    NewInv();
    RunKeeps(NEW, acts, cd);
    var s := After(NEW, acts, cd);
    assert ReaderOk(s, r);
  }

  // ------------------------------------------------------------ overtaking

  /** A push its reader can still take. */
  predicate Takeable(s: System, p: Push) {
    p in s.queued || (p in s.inflight && Get(s, p.reader).up)
  }

  /** The push an action takes out of the world: handled, dropped, or failed unread. */
  predicate Removes(s: System, a: Action) {
    a.Deliver? || (a.Retry? && !Get(s, a.push.reader).up)
  }

  /** The last push of the current version leaves while an older one for the same reader
      stays behind, and nothing newer is due. */
  ghost predicate Overtakes(s: System, a: Action) {
    && Removes(s, a)
    && var p := a.push;
    && p == Current(s, p.reader) && (s.queued + s.inflight)[p] == 1
    && !s.e.pending && p.reader !in s.todo
    && exists q: Push :: q.reader == p.reader && q.version != s.e.version && Takeable(s, q)
  }

  ghost predicate NoOvertaking(s: System, acts: seq<Action>, cd: Time)
    requires Runs(s, acts, cd)
    decreases |acts|
  {
    acts == [] || (!Overtakes(s, acts[0]) && NoOvertaking(Apply(s, acts[0], cd), acts[1..], cd))
  }

  /** First in, first out for each reader is enough. */
  lemma InOrderNeverOvertakes(s: System, a: Action)
    requires Inv(s) && Enabled(s, a)
    requires Removes(s, a) ==> forall q | Takeable(s, q) && q.reader == a.push.reader :: a.push.version <= q.version
    ensures !Overtakes(s, a)
  {
    forall q | Takeable(s, q) ensures q.version <= s.e.version {
      assert PushOk(s, q);
    }
  }

  /** No push that can still be taken, and no cache, is left behind for good. */
  predicate UpToDate(s: System, p: Push, r: Reader) {
    && (Takeable(s, p) ==> Fresh(s, p.reader, p.version))
    && (Get(s, r).loaded ==> Fresh(s, r, Get(s, r).version))
  }

  ghost predicate AllUpToDate(s: System) {
    forall p, r :: UpToDate(s, p, r)
  }

  lemma TakenPush(s: System, q: Push, p: Push)
    requires UpToDate(s, p, p.reader) && PushOk(s, q) && Enabled(s, Deliver(q)) && !Overtakes(s, Deliver(q))
    ensures Takeable(ApplyDeliver(s, q), p) ==> Fresh(ApplyDeliver(s, q), p.reader, p.version)
  {
    var h := ApplyDeliver(s, q);
    assert Get(h, p.reader).up == Get(s, p.reader).up;
    assert Current(s, p.reader) != q && Current(s, p.reader) in s.inflight ==> Current(s, p.reader) in h.inflight;
    assert p in h.inflight ==> p in s.inflight;
  }

  lemma TakenCache(s: System, q: Push, r: Reader)
    requires UpToDate(s, q, r) && StoreOk(s) && PushOk(s, q) && ReaderOk(s, r) && Enabled(s, Deliver(q))
    requires q.reader == r && !Overtakes(s, Deliver(q))
    ensures var h := ApplyDeliver(s, q); Get(h, r).loaded ==> Fresh(h, r, Get(h, r).version)
  {
    var h := ApplyDeliver(s, q);
    assert Current(s, r) != q && Current(s, r) in s.inflight ==> Current(s, r) in h.inflight;
  }

  lemma TakenUpToDate(s: System, q: Push, p: Push, r: Reader)
    requires UpToDate(s, p, r) && UpToDate(s, p, p.reader) && StoreOk(s) && PushOk(s, q) && ReaderOk(s, q.reader)
    requires UpToDate(s, q, q.reader) && Enabled(s, Deliver(q)) && !Overtakes(s, Deliver(q))
    ensures UpToDate(ApplyDeliver(s, q), p, r)
  {
    TakenPush(s, q, p);
    if r == q.reader {
      TakenCache(s, q, r);
    } else {
      var h := ApplyDeliver(s, q);
      assert Get(h, r) == Get(s, r);
      assert Current(s, r) in s.inflight ==> Current(s, r) in h.inflight;
    }
  }

  lemma DroppedUpToDate(s: System, q: Push, busy: bool, p: Push, r: Reader)
    requires Local(s, p, r) && UpToDate(s, p, r) && PushOk(s, q) && ReaderOk(s, q.reader) && UpToDate(s, q, q.reader)
    requires Enabled(s, Retry(q, busy)) && !Overtakes(s, Retry(q, busy))
    ensures UpToDate(ApplyRetry(s, q, busy), p, r)
  {
    var h := ApplyRetry(s, q, busy);
    assert Get(h, r) == Get(s, r) && Get(h, p.reader) == Get(s, p.reader);
    assert forall x :: x in s.queued && x != q ==> x in h.queued;
    assert Get(s, q.reader).up && q in s.queued ==> q in h.queued || q in h.inflight;
  }

  lemma SentUpToDate(s: System, q: Reader, busy: bool, p: Push, r: Reader)
    requires Local(s, p, r) && UpToDate(s, p, r) && ReaderOk(s, q) && Enabled(s, SendOne(q, busy))
    ensures UpToDate(ApplySend(s, q, busy), p, r)
  {
    var h := ApplySend(s, q, busy);
    assert Get(h, r) == Get(s, r) && Get(h, p.reader) == Get(s, p.reader);
    assert p in s.queued && p.reader == q ==> Queued(s, q);
    assert Current(s, q) in h.queued || Current(s, q) in h.inflight || (q in h.gone && !Get(s, q).up && !Queued(s, q));
  }

  lemma SubscribedUpToDate(s: System, q: Reader, arrives: bool, p: Push, r: Reader)
    requires Local(s, p, r) && UpToDate(s, p, r) && ReaderOk(s, q) && Enabled(s, Subscribe(q, arrives))
    ensures UpToDate(ApplySubscribe(s, q, arrives), p, r)
  {
    var h := ApplySubscribe(s, q, arrives);
    assert Get(h, r).(wait := NoCall) == Get(s, r).(wait := NoCall);
    assert Get(h, p.reader).up == Get(s, p.reader).up;
  }

  lemma OthersUpToDate(s: System, a: Action, cd: Time, p: Push, r: Reader)
    requires Local(s, p, r) && UpToDate(s, p, r) && Enabled(s, a) && (a.SendEnd? || a.AskStore?)
    requires a.AskStore? ==> ReaderOk(s, a.reader)
    ensures UpToDate(Apply(s, a, cd), p, r)
  {
    var h := Apply(s, a, cd);
    assert Get(h, r).(wait := NoCall) == Get(s, r).(wait := NoCall);
    assert Get(h, p.reader).up == Get(s, p.reader).up;
  }

  lemma RefreshUpToDate(s: System, a: Action, cd: Time, p: Push, r: Reader)
    requires Local(s, p, r) && UpToDate(s, p, r) && Enabled(s, a) && (a.Publish? || a.TimerFires?)
    ensures UpToDate(Apply(s, a, cd), p, r)
  {
    var h := Apply(s, a, cd);
    assert Get(h, r) == Get(s, r) && Get(h, p.reader) == Get(s, p.reader);
    assert h.e.pending || h.todo == h.e.subs;
  }

  lemma ReadersUpToDate(s: System, a: Action, p: Push, r: Reader)
    requires Local(s, p, r) && UpToDate(s, p, r) && Enabled(s, a)
    requires a.Rise? || a.Awake? || a.Forget? || a.Die? || a.TakeReply? || a.GiveUp?
    requires ReaderOk(s, a.reader)
    ensures UpToDate(ApplyReader(s, a), p, r)
  {
    var h := ApplyReader(s, a);
    assert r != a.reader ==> Get(h, r) == Get(s, r);
    assert p.reader != a.reader ==> Get(h, p.reader) == Get(s, p.reader);
  }

  lemma StepUpToDate(s: System, a: Action, cd: Time)
    requires Inv(s) && AllUpToDate(s) && Enabled(s, a) && !Overtakes(s, a)
    ensures Inv(Apply(s, a, cd)) && AllUpToDate(Apply(s, a, cd))
  {
    StepKeeps(s, a, cd);
    forall p, r ensures UpToDate(Apply(s, a, cd), p, r) {
      assert PushOk(s, p) && ReaderOk(s, r) && ReaderOk(s, p.reader) && UpToDate(s, p, r);
      match a
      case Publish(_, _) => RefreshUpToDate(s, a, cd, p, r);
      case TimerFires(_) => RefreshUpToDate(s, a, cd, p, r);
      case Retry(q, busy) => assert UpToDate(s, q, q.reader); DroppedUpToDate(s, q, busy, p, r);
      case Deliver(q) => assert UpToDate(s, q, q.reader) && UpToDate(s, p, p.reader); TakenUpToDate(s, q, p, r);
      case SendOne(q, busy) => SentUpToDate(s, q, busy, p, r);
      case SendEnd => OthersUpToDate(s, a, cd, p, r);
      case AskStore(_) => OthersUpToDate(s, a, cd, p, r);
      case Subscribe(q, arrives) => SubscribedUpToDate(s, q, arrives, p, r);
      case _ => ReadersUpToDate(s, a, p, r);
    }
  }

  lemma LastOneGone(s: System, a: Action, cd: Time)
    requires Enabled(s, a) && Removes(s, a) && (s.queued + s.inflight)[a.push] == 1
    ensures var h := Apply(s, a, cd);
            && h.e == s.e && h.todo == s.todo
            && a.push !in h.queued && a.push !in h.inflight
            && forall q | q != a.push && Takeable(s, q) :: Takeable(h, q)
  {
  }

  /** Overtaking leaves the older push behind at once. */
  lemma OvertakingLeavesBehind(s: System, a: Action, cd: Time)
    requires Enabled(s, a) && Overtakes(s, a)
    ensures !AllUpToDate(Apply(s, a, cd))
  {
    var p := a.push;
    var q: Push :| q.reader == p.reader && q.version != s.e.version && Takeable(s, q);
    LastOneGone(s, a, cd);
    assert !UpToDate(Apply(s, a, cd), q, q.reader);
  }

  ghost predicate AlwaysUpToDate(s: System, acts: seq<Action>, cd: Time)
    requires Runs(s, acts, cd)
    decreases |acts|
  {
    AllUpToDate(s) && (acts == [] || AlwaysUpToDate(Apply(s, acts[0], cd), acts[1..], cd))
  }

  lemma {:induction false} UpToDateIff(s: System, acts: seq<Action>, cd: Time)
    requires Inv(s) && AllUpToDate(s) && Runs(s, acts, cd)
    ensures AlwaysUpToDate(s, acts, cd) <==> NoOvertaking(s, acts, cd)
    ensures NoOvertaking(s, acts, cd) ==> AllUpToDate(After(s, acts, cd))
    decreases |acts|
  {
    if acts != [] {
      var a := acts[0];
      StepKeeps(s, a, cd);
      if Overtakes(s, a) {
        OvertakingLeavesBehind(s, a, cd);
      } else {
        StepUpToDate(s, a, cd);
        UpToDateIff(Apply(s, a, cd), acts[1..], cd);
      }
    }
  }

  /** Every waiting push and every loaded cache stays up to date throughout a run exactly when
      no push overtakes the last of its kind. */
  lemma UpToDateIffNoOvertaking(acts: seq<Action>, cd: Time)
    requires Runs(NEW, acts, cd)
    ensures AlwaysUpToDate(NEW, acts, cd) <==> NoOvertaking(NEW, acts, cd)
  {
    NewInv();
    UpToDateIff(NEW, acts, cd);
  }

  // ------------------------------------------------------------ an overtaken push

  ghost predicate Reaches(s: System, t: System, cd: Time) {
    exists acts :: Runs(s, acts, cd) && After(s, acts, cd) == t
  }

  lemma {:induction false} Snoc(s: System, acts: seq<Action>, a: Action, cd: Time)
    requires Runs(s, acts, cd) && Enabled(After(s, acts, cd), a)
    ensures Runs(s, acts + [a], cd) && After(s, acts + [a], cd) == Apply(After(s, acts, cd), a, cd)
    decreases |acts|
  {
    if acts == [] {
      assert [] + [a] == [a] && [a][1..] == [];
      assert Runs(Apply(s, a, cd), [], cd);
    } else {
      Snoc(Apply(s, acts[0], cd), acts[1..], a, cd);
      assert (acts + [a])[1..] == acts[1..] + [a];
    }
  }

  lemma Onward(s: System, t: System, a: Action, cd: Time)
    requires Reaches(s, t, cd) && Enabled(t, a)
    ensures Reaches(s, Apply(t, a, cd), cd)
  {
    var acts :| Runs(s, acts, cd) && After(s, acts, cd) == t;
    Snoc(s, acts, a, cd);
  }

  const SECOND: Push := Push(7, 2, 2)
  const THIRD: Push := Push(7, 3, 3)

  const WATCHED: Cache := Cache(true, true, true, 1, 1, NoCall, true)

  /** Reader 7 holds version n and the pushes q wait in the store's queue. */
  function Stage(n: nat, q: multiset<Push>, c: Cache): System {
    System(Entry(n, n, false, 0, if n == 1 then None else Some(0), true, {7}), 0, false, {}, {}, q, multiset{}, multiset{},
           map[7 := c], if n == 1 then [1] else if n == 2 then [1, 2] else [1, 2, 3],
           if n == 1 then [] else if n == 2 then [0] else [0, 0])
  }

  lemma FirstSteps(s1: System, s2: System, s3: System, asleep: Cache, awake: Cache)
    requires asleep == DOWN.(up := true) && awake == asleep.(ctx := true)
    requires s1 == Shared.Put(NEW, 7, asleep) && s2 == Shared.Put(NEW, 7, awake)
    requires s3 == s2.(e := NEW.e.(version := 1, value := 1), hist := [1])
    ensures Enabled(NEW, Rise(7)) && Apply(NEW, Rise(7), 0) == s1
    ensures Enabled(s1, Awake(7)) && Apply(s1, Awake(7), 0) == s2
    ensures Enabled(s2, Publish(1, 0)) && Apply(s2, Publish(1, 0), 0) == s3
  {
  }

  lemma FirstWatch()
    ensures Reaches(NEW, Stage(1, multiset{}, WATCHED), 0)
  {
    assert Runs(NEW, [], 0) && After(NEW, [], 0) == NEW;
    var asleep := DOWN.(up := true);
    var awake := asleep.(ctx := true);
    var s1, s2 := Shared.Put(NEW, 7, asleep), Shared.Put(NEW, 7, awake);
    var s3 := s2.(e := NEW.e.(version := 1, value := 1), hist := [1]);
    FirstSteps(s1, s2, s3, asleep, awake);
    Onward(NEW, NEW, Rise(7), 0);
    Onward(NEW, s1, Awake(7), 0);
    Onward(NEW, s2, Publish(1, 0), 0);
    FirstAnswer(s3, awake);
  }

  lemma FirstAnswerSteps(s3: System, s4: System, s5: System, awake: Cache)
    requires awake == DOWN.(up := true, ctx := true)
    requires s3 == Shared.Put(NEW, 7, awake).(e := NEW.e.(version := 1, value := 1), hist := [1])
    requires s4 == s3.(readers := map[7 := awake.(wait := Asked)], asks := multiset{7})
    requires s5 == s3.(readers := map[7 := awake.(wait := Replied(1, 1))], e := s3.e.(subs := {7}, bound := true))
    ensures Enabled(s3, AskStore(7)) && Apply(s3, AskStore(7), 0) == s4
    ensures Enabled(s4, Subscribe(7, true)) && Apply(s4, Subscribe(7, true), 0) == s5
    ensures Enabled(s5, TakeReply(7)) && Apply(s5, TakeReply(7), 0) == Stage(1, multiset{}, WATCHED)
  {
  }

  lemma FirstAnswer(s3: System, awake: Cache)
    requires awake == DOWN.(up := true, ctx := true)
    requires s3 == Shared.Put(NEW, 7, awake).(e := NEW.e.(version := 1, value := 1), hist := [1])
    requires Reaches(NEW, s3, 0)
    ensures Reaches(NEW, Stage(1, multiset{}, WATCHED), 0)
  {
    var s4 := s3.(readers := map[7 := awake.(wait := Asked)], asks := multiset{7});
    var s5 := s3.(readers := map[7 := awake.(wait := Replied(1, 1))], e := s3.e.(subs := {7}, bound := true));
    FirstAnswerSteps(s3, s4, s5, awake);
    Onward(NEW, s3, AskStore(7), 0);
    Onward(NEW, s4, Subscribe(7, true), 0);
    Onward(NEW, s5, TakeReply(7), 0);
  }

  lemma BusyRefreshSteps(n: nat, q: multiset<Push>, t: System)
    requires (n == 1 && q == multiset{}) || (n == 2 && q == multiset{SECOND})
    requires t == Stage(n + 1, q + multiset{Push(7, n + 1, n + 1)}, WATCHED)
    ensures var s := Stage(n, q, WATCHED);
            var s1 := t.(queued := q, sending := true, todo := {7});
            var s2 := t.(sending := true);
            && Enabled(s, Publish(n + 1, 0)) && Apply(s, Publish(n + 1, 0), 0) == s1
            && Enabled(s1, SendOne(7, true)) && Apply(s1, SendOne(7, true), 0) == s2
            && Enabled(s2, SendEnd) && Apply(s2, SendEnd, 0) == t
  {
  }

  lemma BusyRefresh(n: nat, q: multiset<Push>)
    requires (n == 1 && q == multiset{}) || (n == 2 && q == multiset{SECOND})
    requires Reaches(NEW, Stage(n, q, WATCHED), 0)
    ensures Reaches(NEW, Stage(n + 1, q + multiset{Push(7, n + 1, n + 1)}, WATCHED), 0)
  {
    var t := Stage(n + 1, q + multiset{Push(7, n + 1, n + 1)}, WATCHED);
    BusyRefreshSteps(n, q, t);
    Onward(NEW, Stage(n, q, WATCHED), Publish(n + 1, 0), 0);
    Onward(NEW, t.(queued := q, sending := true, todo := {7}), SendOne(7, true), 0);
    Onward(NEW, t.(sending := true), SendEnd, 0);
  }

  /**
   A cache filled only by a push made for an earlier life depends on the order: a newer
   push, retried first, is dropped because the reader has no context, and the older one,
   retried later, is the first thing the new context sees. All is quiet, the reader is on
   the list, and its Watch is a version behind.
   */
  lemma OvertakenPushIsStale()
    ensures exists s :: Reaches(NEW, s, 0) &&
              Quiescent(s) && 7 in s.e.subs && Watch(s, 7, false) == Some(2) && Fetch(s) == Some(3)
  {
    FirstWatch();
    BusyRefresh(1, multiset{});
    assert multiset{} + multiset{SECOND} == multiset{SECOND};
    BusyRefresh(2, multiset{SECOND});
    NewPushIsDropped(DOWN.(up := true));
    OldPushArrives(DOWN.(up := true));
  }

  lemma NewPushSteps(asleep: Cache, s0: System, s1: System, s2: System)
    requires asleep == DOWN.(up := true)
    requires s0 == Stage(3, multiset{SECOND} + multiset{THIRD}, WATCHED)
    requires s1 == Stage(3, multiset{SECOND}, WATCHED).(inflight := multiset{THIRD})
    requires s2 == s1.(readers := map[7 := asleep])
    ensures Enabled(s0, Retry(THIRD, false)) && Apply(s0, Retry(THIRD, false), 0) == s1
    ensures Enabled(s1, Forget(7)) && Apply(s1, Forget(7), 0) == s2
  {
  }

  lemma DropStep(asleep: Cache, s2: System)
    requires asleep == DOWN.(up := true)
    requires s2 == Stage(3, multiset{SECOND}, WATCHED).(inflight := multiset{THIRD}, readers := map[7 := asleep])
    ensures Enabled(s2, Deliver(THIRD)) && Apply(s2, Deliver(THIRD), 0) == Stage(3, multiset{SECOND}, asleep)
  {
  }

  lemma NewPushIsDropped(asleep: Cache)
    requires asleep == DOWN.(up := true) && Reaches(NEW, Stage(3, multiset{SECOND} + multiset{THIRD}, WATCHED), 0)
    ensures Reaches(NEW, Stage(3, multiset{SECOND}, asleep), 0)
  {
    var s0 := Stage(3, multiset{SECOND} + multiset{THIRD}, WATCHED);
    var s1 := Stage(3, multiset{SECOND}, WATCHED).(inflight := multiset{THIRD});
    var s2 := s1.(readers := map[7 := asleep]);
    NewPushSteps(asleep, s0, s1, s2);
    DropStep(asleep, s2);
    Onward(NEW, s0, Retry(THIRD, false), 0);
    Onward(NEW, s1, Forget(7), 0);
    Onward(NEW, s2, Deliver(THIRD), 0);
  }

  lemma OldPushSteps(asleep: Cache, awake: Cache, s3: System, s4: System, s5: System, s6: System)
    requires asleep == DOWN.(up := true) && awake == asleep.(ctx := true)
    requires s3 == Stage(3, multiset{SECOND}, asleep) && s4 == Stage(3, multiset{SECOND}, awake)
    requires s5 == Stage(3, multiset{}, awake).(inflight := multiset{SECOND})
    requires s6 == Stage(3, multiset{}, awake.(loaded := true, version := 2, value := 2))
    ensures Enabled(s3, Awake(7)) && Apply(s3, Awake(7), 0) == s4
    ensures Enabled(s4, Retry(SECOND, false)) && Apply(s4, Retry(SECOND, false), 0) == s5
    ensures Enabled(s5, Deliver(SECOND)) && Apply(s5, Deliver(SECOND), 0) == s6
  {
  }

  lemma OldPushArrives(asleep: Cache)
    requires asleep == DOWN.(up := true) && Reaches(NEW, Stage(3, multiset{SECOND}, asleep), 0)
    ensures exists s :: Reaches(NEW, s, 0) &&
              Quiescent(s) && 7 in s.e.subs && Watch(s, 7, false) == Some(2) && Fetch(s) == Some(3)
  {
    var awake := asleep.(ctx := true);
    var s3, s4 := Stage(3, multiset{SECOND}, asleep), Stage(3, multiset{SECOND}, awake);
    var s5 := Stage(3, multiset{}, awake).(inflight := multiset{SECOND});
    var s6 := Stage(3, multiset{}, awake.(loaded := true, version := 2, value := 2));
    OldPushSteps(asleep, awake, s3, s4, s5, s6);
    Onward(NEW, s3, Awake(7), 0);
    Onward(NEW, s4, Retry(SECOND, false), 0);
    Onward(NEW, s5, Deliver(SECOND), 0);
    assert Watch(s6, 7, false) == Some(2);
  }

  // ------------------------------------------------------------ one life of a cache

  /** The snapshot is kept, or replaced by a newer one. */
  predicate Onwards(c: Cache, d: Cache) {
    d.loaded && d.version >= c.version && (d.version == c.version ==> d.value == c.value)
  }

  lemma SnapshotOfReader(s: System, a: Action, r: Reader)
    requires a.TakeReply? || a.GiveUp? || ((a.Rise? || a.Awake? || a.Forget? || a.Die?) && a.reader != r)
    requires Enabled(s, a) && Get(s, r).loaded
    ensures Onwards(Get(s, r), Get(ApplyReader(s, a), r))
  {
    assert r != a.reader ==> Get(ApplyReader(s, a), r) == Get(s, r);
  }

  lemma SnapshotOfDeliver(s: System, p: Push, r: Reader)
    requires Enabled(s, Deliver(p)) && Get(s, r).loaded
    ensures Onwards(Get(s, r), Get(ApplyDeliver(s, p), r))
  {
    assert r != p.reader ==> Get(ApplyDeliver(s, p), r) == Get(s, r);
  }

  lemma SnapshotOfStore(s: System, a: Action, cd: Time, r: Reader)
    requires a.Publish? || a.TimerFires? || a.SendOne? || a.SendEnd? || a.Retry?
    requires Enabled(s, a)
    ensures Get(Apply(s, a, cd), r) == Get(s, r)
  {
  }

  lemma SnapshotOfCall(s: System, a: Action, cd: Time, r: Reader)
    requires a.Subscribe? || a.AskStore?
    requires Enabled(s, a)
    ensures Get(Apply(s, a, cd), r).(wait := NoCall) == Get(s, r).(wait := NoCall)
  {
    if a.Subscribe? {
      SnapshotOfSubscribe(s, a.reader, a.arrives, r);
    } else {
      assert a.reader != r ==> Get(Apply(s, a, cd), r) == Get(s, r);
    }
  }

  lemma SnapshotOfSubscribe(s: System, q: Reader, arrives: bool, r: Reader)
    requires Enabled(s, Subscribe(q, arrives))
    ensures Get(ApplySubscribe(s, q, arrives), r).(wait := NoCall) == Get(s, r).(wait := NoCall)
  {
    assert q != r ==> Get(ApplySubscribe(s, q, arrives), r) == Get(s, r);
  }

  /** While a context lasts its snapshot never goes back. */
  lemma SnapshotNeverGoesBack(s: System, a: Action, cd: Time, r: Reader)
    requires Enabled(s, a) && Get(s, r).loaded
    requires !(a == Forget(r) || a == Die(r) || a == Awake(r) || a == Rise(r))
    ensures var c := Get(Apply(s, a, cd), r);
            c.loaded && c.version >= Get(s, r).version && (c.version == Get(s, r).version ==> c.value == Get(s, r).value)
  {
    match a
    case Deliver(p) => SnapshotOfDeliver(s, p, r);
    case Subscribe(_, _) => SnapshotOfCall(s, a, cd, r);
    case AskStore(_) => SnapshotOfCall(s, a, cd, r);
    case Publish(_, _) => SnapshotOfStore(s, a, cd, r);
    case TimerFires(_) => SnapshotOfStore(s, a, cd, r);
    case SendOne(_, _) => SnapshotOfStore(s, a, cd, r);
    case SendEnd => SnapshotOfStore(s, a, cd, r);
    case Retry(_, _) => SnapshotOfStore(s, a, cd, r);
    case _ => SnapshotOfReader(s, a, r);
  }

  // ------------------------------------------------------------ the rate of pushes

  predicate Spaced(sends: seq<Time>, cd: Time) {
    forall i | 0 < i < |sends| :: sends[i] - sends[i - 1] >= cd
  }

  predicate RateOk(s: System, cd: Time) {
    && Spaced(s.sends, cd)
    && (s.sends != [] ==> s.e.lastSent == Some(s.sends[|s.sends| - 1]))
    && (s.sends == [] ==> s.e.lastSent.None?)
    && (s.e.pending ==> s.e.lastSent.Some? && s.e.due == s.e.lastSent.value + cd)
  }

  lemma SendsAlone(s: System, a: Action, cd: Time)
    requires Enabled(s, a) && !a.Publish? && !a.TimerFires?
    ensures var t := Apply(s, a, cd);
            && t.sends == s.sends && t.e.lastSent == s.e.lastSent
            && t.e.pending == s.e.pending && t.e.due == s.e.due
  {
    match a
    case SendOne(r, busy) => assert ApplySend(s, r, busy).e == s.e;
    case Retry(p, busy) => assert ApplyRetry(s, p, busy).e == s.e;
    case Deliver(p) => assert ApplyDeliver(s, p).e == s.e;
    case Subscribe(r, arrives) => assert ApplySubscribe(s, r, arrives).sends == s.sends;
    case AskStore(_) =>
    case SendEnd =>
    case _ =>
  }

  lemma RateKeeps(s: System, a: Action, cd: Time)
    requires cd > 0 && RateOk(s, cd) && Enabled(s, a)
    ensures RateOk(Apply(s, a, cd), cd)
  {
    if !a.Publish? && !a.TimerFires? {
      SendsAlone(s, a, cd);
    }
  }

  lemma {:induction false} RunRate(s: System, acts: seq<Action>, cd: Time)
    requires cd > 0 && RateOk(s, cd) && Runs(s, acts, cd)
    ensures RateOk(After(s, acts, cd), cd)
    decreases |acts|
  {
    if acts != [] {
      RateKeeps(s, acts[0], cd);
      RunRate(Apply(s, acts[0], cd), acts[1..], cd);
    }
  }

  lemma {:induction false} Span(sends: seq<Time>, cd: Time, i: nat, j: nat)
    requires Spaced(sends, cd) && i <= j < |sends|
    ensures sends[j] - sends[i] >= (j - i) * cd
    decreases j
  {
    if i < j {
      Span(sends, cd, i, j - 1);
      assert (j - i) * cd == (j - 1 - i) * cd + cd;
    }
  }

  /** Any n refreshes in a row span at least n - 1 cooldowns, for every publish schedule. */
  lemma PushRate(acts: seq<Action>, cd: Time, i: nat, j: nat)
    requires cd > 0 && Runs(NEW, acts, cd)
    ensures var s := After(NEW, acts, cd);
            i <= j < |s.sends| ==> s.sends[j] - s.sends[i] >= (j - i) * cd
  {
    RunRate(NEW, acts, cd);
    var s := After(NEW, acts, cd);
    if i <= j < |s.sends| {
      Span(s.sends, cd, i, j);
    }
  }
}
