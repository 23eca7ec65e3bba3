/** The lease scripts as they read and overwrite a key's hash fields and its time to live. */
module LeaseScripts {
  import opened Prelude
  import opened Lease

  class RedisKey {
    var present: bool
    var owner: Owner
    var generation: nat
    var data: string
    var ttl: int // what the last PEXPIRE set

    constructor ()
      ensures State() == None
    {
      present, owner, generation, data, ttl := false, "", 0, "", -1;
    }

    function State(): Store
      reads this
    {
      if present then Some(Record(owner, generation, data)) else None
    }

    /** A missing key has no fields. */
    predicate Valid()
      reads this
    {
      !present ==> owner == "" && generation == 0 && data == ""
    }

    method Expire()
      modifies this
      ensures Valid() && State() == None
    {
      present, owner, generation, data := false, "", 0, "";
    }

    /** loadLua; `pttl` is what the clock has left of the time to live. */
    method LoadLease(loader: Owner, ttlMs: int, pttl: int) returns (reply: Reply)
      requires Valid() && ttlMs > 0
      modifies this
      ensures Valid() && (State(), reply) == Step(old(State()), Load(loader, pttl))
      ensures ttl == if reply.Granted? then ttlMs else old(ttl)
    {
      if !present {
        present, owner, generation, data, ttl := true, loader, 1, "", ttlMs;
        return Granted(loader, 1, "");
      }
      if owner == loader {
        ttl := ttlMs;
        return Granted(loader, generation, data);
      }
      if owner == "" || pttl <= 0 {
        owner, generation, ttl := loader, generation + 1, ttlMs;
        return Granted(loader, generation, data);
      }
      reply := Taken(owner, generation);
    }

    /** saveLua. */
    method SaveData(saver: Owner, gen: int, saved: string, ttlMs: int, renewOnly: bool) returns (reply: Reply)
      requires Valid()
      modifies this
      ensures Valid() && (State(), reply) == Step(old(State()), Save(saver, gen, saved, renewOnly))
      ensures ttl == if reply == Accepted && ttlMs > 0 then ttlMs else old(ttl)
    {
      if owner != saver || generation != gen { return Refused; }
      present := true;
      if !renewOnly {
        data := saved;
      }
      if ttlMs > 0 {
        ttl := ttlMs;
      }
      reply := Accepted;
    }

    /** releaseLua: the data and the generation stay. */
    method ReleaseLease(releaser: Owner, gen: int) returns (reply: Reply)
      requires Valid()
      modifies this
      ensures Valid() && (State(), reply) == Step(old(State()), Release(releaser, gen))
      ensures ttl == old(ttl)
    {
      if owner != releaser || generation != gen { return Refused; }
      present, owner := true, "";
      reply := Accepted;
    }

    /** The script of ForceRelease. */
    method ForceReleaseLease(ttlMs: int) returns (reply: Reply)
      requires Valid()
      modifies this
      ensures Valid() && (State(), reply) == Step(old(State()), ForceRelease)
      ensures ttl == if ttlMs > 0 then ttlMs else old(ttl)
    {
      present, owner, generation := true, "", generation + 1;
      if ttlMs > 0 {
        ttl := ttlMs;
      }
      reply := Forced(generation);
    }
  }
}
