/** What the store holds is what was published, and it says so in time. */
module SharedValues {
  import opened Prelude
  import opened Shared
  import opened SharedLaws

  /** The values a run was asked to publish, in order. */
  function Values(acts: seq<Action>): seq<Value>
    decreases |acts|
  {
    if acts == [] then [] else Asked(acts[0]) + Values(acts[1..])
  }

  function Asked(a: Action): seq<Value> {
    if a.Publish? then [a.value] else []
  }

  lemma HistoryGrows(s: System, a: Action, cd: Time)
    requires Enabled(s, a)
    ensures Apply(s, a, cd).hist == s.hist + Asked(a)
  {
    match a
    case SendOne(r, busy) => assert ApplySend(s, r, busy).hist == s.hist;
    case Retry(p, busy) => assert ApplyRetry(s, p, busy).hist == s.hist;
    case Subscribe(r, arrives) => assert ApplySubscribe(s, r, arrives).hist == s.hist;
    case Deliver(p) => assert ApplyDeliver(s, p).hist == s.hist;
    case _ =>
  }

  lemma {:induction false} RunHistory(s: System, acts: seq<Action>, cd: Time)
    requires Runs(s, acts, cd)
    ensures After(s, acts, cd).hist == s.hist + Values(acts)
    decreases |acts|
  {
    if acts != [] {
      HistoryGrows(s, acts[0], cd);
      RunHistory(Apply(s, acts[0], cd), acts[1..], cd);
      assert s.hist + (Asked(acts[0]) + Values(acts[1..])) == s.hist + Asked(acts[0]) + Values(acts[1..]);
    }
  }

  /** The store's history is what the run was asked to publish, its version how often, and a
      Fetch gives the last of it. */
  lemma FetchIsLastPublished(acts: seq<Action>, cd: Time)
    requires Runs(NEW, acts, cd)
    ensures var s := After(NEW, acts, cd);
            var vs := Values(acts);
            && s.hist == vs && s.e.version == |vs|
            && Fetch(s) == (if vs == [] then None else Some(vs[|vs| - 1]))
  {
    RunHistory(NEW, acts, cd);
    NewInv();
    RunKeeps(NEW, acts, cd);
  }

  /** A version and the value that was published with it. */
  predicate Nth(vs: seq<Value>, version: nat, value: Value) {
    1 <= version <= |vs| && vs[version - 1] == value
  }

  /** No loaded cache and no waiting push holds anything that was not published so. */
  lemma NothingElseIsHeld(acts: seq<Action>, cd: Time, r: Reader, p: Push)
    requires Runs(NEW, acts, cd)
    ensures var s := After(NEW, acts, cd);
            && (Get(s, r).loaded ==> Nth(Values(acts), Get(s, r).version, Get(s, r).value))
            && (p in s.queued || p in s.inflight ==> Nth(Values(acts), p.version, p.value))
  {
    FetchIsLastPublished(acts, cd);
    NewInv();
    RunKeeps(NEW, acts, cd);
    var s := After(NEW, acts, cd);
    assert ReaderOk(s, r) && PushOk(s, p);
  }

  /** Publishing is followed up: with a subscriber group, either a refresh of the new version
      goes to every subscriber at once, because the cooldown is over; or the push timer is set
      for the moment it is over, as it was before or is now. */
  lemma PublishIsFollowedUp(s: System, v: Value, now: Time, cd: Time)
    requires Enabled(s, Publish(v, now)) && s.e.bound
    ensures var t := Apply(s, Publish(v, now), cd);
            && t.e.version == s.e.version + 1 && t.e.value == v
            && (if s.e.pending then t.e.pending && t.e.due == s.e.due && !t.sending
                else if cd <= 0 || s.e.lastSent.None? || now >= s.e.lastSent.value + cd then
                  t.sending && t.todo == s.e.subs && t.e.lastSent == Some(now) && !t.e.pending
                else t.e.pending && t.e.due == s.e.lastSent.value + cd && now < t.e.due && !t.sending)
  {
  }

  /** And when the push timer fires, the refresh goes to every subscriber. */
  lemma TimerSendsToAll(s: System, now: Time, cd: Time)
    requires Enabled(s, TimerFires(now)) && s.e.bound
    ensures var t := Apply(s, TimerFires(now), cd);
            t.sending && t.todo == s.e.subs && !t.e.pending && t.e.lastSent == Some(now)
  {
  }
}
