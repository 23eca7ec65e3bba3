/** Exactly when a reader's cache falls behind for good. */
module SharedCaches {
  import opened Prelude
  import opened Shared
  import opened SharedLaws
  import opened SharedTheorems

  /** Every loaded cache is at the store's version, or a push of it is on its way or due. */
  ghost predicate CachesFresh(s: System) {
    forall r :: CacheFresh(s, r)
  }

  predicate CacheFresh(s: System, r: Reader) {
    Get(s, r).loaded ==> Fresh(s, r, Get(s, r).version)
  }

  /** A push is the first thing a context without a cache sees; it is not of the store's
      version, and nothing newer is on its way to the reader or due. */
  predicate FillsStale(s: System, a: Action) {
    && a.Deliver?
    && var p := a.push;
    var c := Get(s, p.reader);
    c.up && c.ctx && !c.loaded && !Fresh(s, p.reader, p.version)
  }

  // ------------------------------------------------------------ one action

  /** A delivery leaves a cache that is loaded and fresh so. */
  lemma DeliverFresh(s: System, p: Push, r: Reader)
    requires Enabled(s, Deliver(p)) && PushOk(s, p) && StoreOk(s) && ReaderOk(s, r)
    requires Get(s, r).loaded && CacheFresh(s, r)
    ensures CacheFresh(ApplyDeliver(s, p), r)
  {
    var h := ApplyDeliver(s, p);
    assert r != p.reader ==> Get(h, r) == Get(s, r);
    assert Current(s, r) != p && Current(s, r) in s.inflight ==> Current(s, r) in h.inflight;
  }

  /** A cache that a delivery fills is fresh as the push was. */
  lemma FillFresh(s: System, p: Push)
    requires Enabled(s, Deliver(p)) && Get(s, p.reader).up && Get(s, p.reader).ctx && !Get(s, p.reader).loaded
    ensures var c := Get(ApplyDeliver(s, p), p.reader);
            c.loaded && (CacheFresh(ApplyDeliver(s, p), p.reader) <==> Fresh(s, p.reader, p.version))
  {
    var h := ApplyDeliver(s, p);
    var n := Current(s, p.reader);
    assert n != p ==> (n in s.inflight <==> n in h.inflight);
  }

  lemma DeliverCaches(s: System, p: Push)
    requires Inv(s) && CachesFresh(s) && Enabled(s, Deliver(p))
    ensures CachesFresh(ApplyDeliver(s, p)) <==> !FillsStale(s, Deliver(p))
  {
    var h := ApplyDeliver(s, p);
    var c := Get(s, p.reader);
    assert PushOk(s, p);
    if c.up && c.ctx && !c.loaded {
      FillFresh(s, p);
      assert CachesFresh(h) ==> CacheFresh(h, p.reader);
    }
    forall r | r != p.reader || !FillsStale(s, Deliver(p)) ensures CacheFresh(h, r) {
      assert CacheFresh(s, r) && ReaderOk(s, r);
      if Get(s, r).loaded {
        DeliverFresh(s, p, r);
      } else {
        assert r != p.reader ==> Get(h, r) == Get(s, r);
      }
    }
  }

  lemma RetryFresh(s: System, q: Push, busy: bool, r: Reader)
    requires Enabled(s, Retry(q, busy)) && ReaderOk(s, r) && CacheFresh(s, r)
    ensures CacheFresh(ApplyRetry(s, q, busy), r)
  {
    var h := ApplyRetry(s, q, busy);
    var n := Current(s, r);
    assert Get(h, r) == Get(s, r);
    assert n != q && n in s.queued ==> n in h.queued;
    assert n in s.inflight ==> n in h.inflight;
    assert n == q && Get(s, r).up && n in s.queued ==> n in h.queued || n in h.inflight;
  }

  /** What is not a delivery keeps every cache fresh. */
  lemma OtherFresh(s: System, a: Action, cd: Time, r: Reader)
    requires Inv(s) && Enabled(s, a) && !a.Deliver? && CacheFresh(s, r)
    ensures CacheFresh(Apply(s, a, cd), r)
  {
    var p := Push(r, s.e.version + 1, 0); // no such push has been made
    assert PushOk(s, p) && ReaderOk(s, r);
    assert UpToDate(s, p, r);
    if a.Publish? || a.TimerFires? {
      RefreshUpToDate(s, a, cd, p, r);
    } else if a.Retry? {
      RetryFresh(s, a.push, a.busy, r);
    } else if a.SendEnd? {
      OthersUpToDate(s, a, cd, p, r);
    } else {
      assert ReaderOk(s, a.reader);
      if a.SendOne? {
        SentUpToDate(s, a.reader, a.busy, p, r);
      } else if a.AskStore? {
        OthersUpToDate(s, a, cd, p, r);
      } else if a.Subscribe? {
        SubscribedUpToDate(s, a.reader, a.arrives, p, r);
      } else {
        ReadersUpToDate(s, a, p, r);
      }
    }
  }

  /** One action takes all caches from fresh to fresh exactly if it does not fill an empty
      cache with a stale push. */
  lemma StepFreshIff(s: System, a: Action, cd: Time)
    requires Inv(s) && CachesFresh(s) && Enabled(s, a)
    ensures CachesFresh(Apply(s, a, cd)) <==> !FillsStale(s, a)
  {
    if a.Deliver? {
      DeliverCaches(s, a.push);
    } else {
      forall r ensures CacheFresh(Apply(s, a, cd), r) {
        assert CacheFresh(s, r);
        OtherFresh(s, a, cd, r);
      }
    }
  }

  // ------------------------------------------------------------ whole runs

  ghost predicate AlwaysFresh(s: System, acts: seq<Action>, cd: Time)
    requires Runs(s, acts, cd)
    decreases |acts|
  {
    CachesFresh(s) && (acts == [] || AlwaysFresh(Apply(s, acts[0], cd), acts[1..], cd))
  }

  predicate NeverFillsStale(s: System, acts: seq<Action>, cd: Time)
    requires Runs(s, acts, cd)
    decreases |acts|
  {
    acts == [] || (!FillsStale(s, acts[0]) && NeverFillsStale(Apply(s, acts[0], cd), acts[1..], cd))
  }

  lemma {:induction false} RunFreshIff(s: System, acts: seq<Action>, cd: Time)
    requires Inv(s) && CachesFresh(s) && Runs(s, acts, cd)
    ensures AlwaysFresh(s, acts, cd) <==> NeverFillsStale(s, acts, cd)
    ensures NeverFillsStale(s, acts, cd) ==> CachesFresh(After(s, acts, cd))
    decreases |acts|
  {
    if acts != [] {
      StepKeeps(s, acts[0], cd);
      StepFreshIff(s, acts[0], cd);
      if !FillsStale(s, acts[0]) {
        RunFreshIff(Apply(s, acts[0], cd), acts[1..], cd);
      }
    }
  }

  lemma NewFresh()
    ensures Inv(NEW) && CachesFresh(NEW)
  {
    NewInv();
    forall r ensures CacheFresh(NEW, r) {
      assert Get(NEW, r) == DOWN;
    }
  }

  /**
   Every loaded cache, watched in its present life or not, stays fresh throughout a run
   exactly when no delivery fills an empty cache with a stale push; and then, once all is
   quiet, every Watch equals a Fetch.
   */
  lemma CachesFreshIff(acts: seq<Action>, cd: Time, r: Reader, expired: bool)
    requires Runs(NEW, acts, cd)
    ensures AlwaysFresh(NEW, acts, cd) <==> NeverFillsStale(NEW, acts, cd)
    ensures var s := After(NEW, acts, cd);
            NeverFillsStale(NEW, acts, cd) && Quiescent(s) ==> Watch(s, r, expired) == Fetch(s)
  {
    NewFresh();
    RunFreshIff(NEW, acts, cd);
    RunKeeps(NEW, acts, cd);
    var s := After(NEW, acts, cd);
    assert ReaderOk(s, r);
    if NeverFillsStale(NEW, acts, cd) {
      assert CacheFresh(s, r);
    }
  }

  lemma {:induction false} UpToDateCaches(s: System, acts: seq<Action>, cd: Time)
    requires Runs(s, acts, cd) && AlwaysUpToDate(s, acts, cd)
    ensures AlwaysFresh(s, acts, cd)
    decreases |acts|
  {
    forall r ensures CacheFresh(s, r) {
      assert UpToDate(s, Push(0, 0, 0), r);
    }
    if acts != [] {
      UpToDateCaches(Apply(s, acts[0], cd), acts[1..], cd);
    }
  }

  /** Overtaking is what it takes: a run in which no push overtakes the last of its kind
      never fills a cache with a stale one. */
  lemma NoOvertakingKeepsFresh(acts: seq<Action>, cd: Time)
    requires Runs(NEW, acts, cd) && NoOvertaking(NEW, acts, cd)
    ensures NeverFillsStale(NEW, acts, cd)
  {
    UpToDateIffNoOvertaking(acts, cd);
    UpToDateCaches(NEW, acts, cd);
    NewFresh();
    RunFreshIff(NEW, acts, cd);
  }
}
