/**
 The lease scripts of grain/driver_redis.go. Each script runs atomically on one key; nodes
 call them in any order with any arguments. What the clock left of the lease when Load
 looks (`pttl`) is an input. A key that expires is gone with everything in it: the run of
 scripts between two such moments is one lifetime of the key.
 */
module Lease {
  import opened Prelude

  type Owner = string

  datatype Record = Record(owner: Owner, gen: nat, data: string)

  /** The key's hash, if the key exists. */
  type Store = Option<Record>

  datatype Op =
    | Load(loader: Owner, pttl: int)
    | Save(saver: Owner, saveGen: int, saved: string, renewOnly: bool)
    | Release(releaser: Owner, releaseGen: int)
    | ForceRelease

  datatype Reply =
    | Granted(to: Owner, gen: nat, data: string)
    | Taken(holder: Owner, at: nat)
    | Accepted
    | Refused
    | Forced(newGen: nat)

  /** The fields a script reads; a field that is not there reads as empty or 0. */
  function Fields(s: Store): Record {
    if s.Some? then s.value else Record("", 0, "")
  }

  predicate Holds(s: Store, owner: Owner, gen: int) {
    Fields(s).owner == owner && Fields(s).gen == gen
  }

  function Step(s: Store, op: Op): (Store, Reply) {
    var r := Fields(s);
    match op
    case Load(owner, pttl) =>
      if s.None? then (Some(Record(owner, 1, "")), Granted(owner, 1, ""))
      else if r.owner == owner then (s, Granted(owner, r.gen, r.data))
      else if r.owner == "" || pttl <= 0 then
        (Some(r.(owner := owner, gen := r.gen + 1)), Granted(owner, r.gen + 1, r.data))
      else (s, Taken(r.owner, r.gen))
    case Save(owner, gen, data, renewOnly) =>
      if !Holds(s, owner, gen) then (s, Refused)
      else (Some(if renewOnly then r else r.(data := data)), Accepted)
    case Release(owner, gen) =>
      if !Holds(s, owner, gen) then (s, Refused)
      else (Some(r.(owner := "")), Accepted)
    case ForceRelease => (Some(r.(owner := "", gen := r.gen + 1)), Forced(r.gen + 1))
  }

  /** What a run of scripts leaves, within one lifetime of the key. */
  function After(s: Store, ops: seq<Op>): Store
    decreases |ops|
  {
    if ops == [] then s else After(Step(s, ops[0]).0, ops[1..])
  }

  /** The reply the i-th script of a run gives. */
  function ReplyAt(s: Store, ops: seq<Op>, i: nat): Reply
    requires i < |ops|
  {
    Step(After(s, ops[..i]), ops[i]).1
  }

  lemma {:induction false} AfterConcat(s: Store, a: seq<Op>, b: seq<Op>)
    ensures After(s, a + b) == After(After(s, a), b)
    decreases |a|
  {
    if a == [] {
      assert a + b == b;
    } else {
      assert (a + b)[1..] == a[1..] + b;
      AfterConcat(Step(s, a[0]).0, a[1..], b);
    }
  }

  // ------------------------------------------------------------ generations

  /** How a lease may develop: the generation never falls, and while it stays the owner may
      only go. */
  predicate Later(s: Store, t: Store) {
    && Fields(s).gen <= Fields(t).gen
    && (Fields(s).gen == Fields(t).gen ==> Fields(t).owner == Fields(s).owner || Fields(t).owner == "")
  }

  lemma {:induction false} RunsForward(s: Store, ops: seq<Op>)
    ensures Later(s, After(s, ops))
    decreases |ops|
  {
    if ops != [] {
      var t := Step(s, ops[0]).0;
      assert Later(s, t);
      RunsForward(t, ops[1..]);
    }
  }

  /** Whatever nodes do between two moments, the generation has not fallen. */
  lemma GenerationNeverFalls(s: Store, ops: seq<Op>, i: nat, j: nat)
    requires i <= j <= |ops|
    ensures Fields(After(s, ops[..i])).gen <= Fields(After(s, ops[..j])).gen
  {
    Between(s, ops, i, j);
  }

  lemma Between(s: Store, ops: seq<Op>, i: nat, j: nat)
    requires i <= j <= |ops|
    ensures Later(After(s, ops[..i]), After(s, ops[..j]))
  {
    assert ops[..j] == ops[..i] + ops[i..j];
    AfterConcat(s, ops[..i], ops[i..j]);
    RunsForward(After(s, ops[..i]), ops[i..j]);
  }

  /** A granted lease is what the store holds right after. */
  lemma GrantHolds(s: Store, ops: seq<Op>, i: nat)
    requires i < |ops| && ReplyAt(s, ops, i).Granted?
    ensures var g := ReplyAt(s, ops, i);
            Holds(After(s, ops[..i + 1]), g.to, g.gen) && ops[i] == Load(g.to, ops[i].pttl)
  {
    assert ops[..i + 1] == ops[..i] + [ops[i]];
    AfterConcat(s, ops[..i], [ops[i]]);
    assert [ops[i]][1..] == [];
  }

  /** Each generation is granted to at most one owner, ever. */
  lemma OneOwnerPerGeneration(s: Store, ops: seq<Op>, i: nat, j: nat)
    requires i <= j < |ops| && ReplyAt(s, ops, i).Granted? && ReplyAt(s, ops, j).Granted?
    requires ReplyAt(s, ops, i).gen == ReplyAt(s, ops, j).gen && ReplyAt(s, ops, j).to != ""
    ensures ReplyAt(s, ops, i).to == ReplyAt(s, ops, j).to
  {
    GrantHolds(s, ops, i);
    GrantHolds(s, ops, j);
    Between(s, ops, i + 1, j + 1);
  }

  // ------------------------------------------------------------ fencing

  /** Some run of scripts makes this the current token. */
  ghost predicate CanHold(s: Store, owner: Owner, gen: int) {
    exists ops :: Holds(After(s, ops), owner, gen)
  }

  /** A token that is not the current one can become it only by a generation still to come,
      and every generation still to come can be reached by every owner. So what is refused
      for its generation or an older one is refused for good. */
  lemma RefusedForeverIff(s: Store, owner: Owner, gen: int)
    requires owner != "" && !Holds(s, owner, gen)
    ensures CanHold(s, owner, gen) <==> gen > Fields(s).gen
  {
    if gen > Fields(s).gen {
      var ops := Reach(s, owner, gen);
    }
    if CanHold(s, owner, gen) {
      var ops :| Holds(After(s, ops), owner, gen);
      RunsForward(s, ops);
    }
  }

  /** Forced releases up to the generation before, then a load. */
  lemma {:induction false} Reach(s: Store, owner: Owner, gen: int) returns (ops: seq<Op>)
    requires owner != "" && gen > Fields(s).gen
    ensures Holds(After(s, ops), owner, gen)
    decreases gen - Fields(s).gen
  {
    var t := Step(s, ForceRelease).0;
    if gen > Fields(t).gen {
      var rest := Reach(t, owner, gen);
      ops := [ForceRelease] + rest;
      assert ops[1..] == rest;
    } else if s.None? || Fields(s).owner != owner {
      ops := [Load(owner, 0)];
      assert ops[1..] == [];
    } else {
      // its own older lease has to go first
      var u := Step(s, Release(owner, Fields(s).gen)).0;
      ops := [Release(owner, Fields(s).gen), Load(owner, 0)];
      assert ops[1..] == [Load(owner, 0)] && [Load(owner, 0)][1..] == [];
      assert After(s, ops) == After(u, [Load(owner, 0)]);
      assert After(u, [Load(owner, 0)]) == Step(u, Load(owner, 0)).0;
    }
  }

  /** Fencing: after a lease has been granted, no save or release under an older lease, or
      under the same generation by another owner, is accepted any more. */
  lemma Fenced(s: Store, ops: seq<Op>, i: nat, j: nat, owner: Owner, gen: int)
    requires i < j < |ops| && ReplyAt(s, ops, i).Granted?
    requires (ops[j].Save? && ops[j].saver == owner && ops[j].saveGen == gen)
          || (ops[j].Release? && ops[j].releaser == owner && ops[j].releaseGen == gen)
    requires owner != ""
    requires gen < ReplyAt(s, ops, i).gen || (gen == ReplyAt(s, ops, i).gen && owner != ReplyAt(s, ops, i).to)
    ensures ReplyAt(s, ops, j) == Refused
  {
    GrantHolds(s, ops, i);
    Between(s, ops, i + 1, j);
  }

  /** The holder is not fenced out: its saves are accepted as long as no other lease is
      granted, nothing is forced and it does not let go itself. */
  lemma {:induction false} HolderKeepsIt(s: Store, ops: seq<Op>, owner: Owner)
    requires s.Some? && owner != "" && Fields(s).owner == owner
    requires forall i | 0 <= i < |ops| :: !ops[i].ForceRelease? && (ops[i].Load? ==> ops[i].pttl > 0)
    requires forall i | 0 <= i < |ops| && ops[i].Release? :: !Holds(s, ops[i].releaser, ops[i].releaseGen)
    ensures Holds(After(s, ops), owner, Fields(s).gen)
    decreases |ops|
  {
    if ops != [] {
      var t := Step(s, ops[0]).0;
      assert t.Some? && Fields(t).owner == owner && Fields(t).gen == Fields(s).gen;
      HolderKeepsIt(t, ops[1..], owner);
    }
  }

  // ------------------------------------------------------------ data

  predicate Writes(s: Store, op: Op) {
    op.Save? && !op.renewOnly && Step(s, op).1 == Accepted
  }

  ghost predicate WritesNothing(s: Store, ops: seq<Op>)
    decreases |ops|
  {
    ops == [] || (!Writes(s, ops[0]) && WritesNothing(Step(s, ops[0]).0, ops[1..]))
  }

  /** Loads, takeovers, releases, forced or not, renewals and refused saves keep the data. */
  lemma {:induction false} DataStays(s: Store, ops: seq<Op>)
    requires WritesNothing(s, ops)
    ensures Fields(After(s, ops)).data == Fields(s).data
    decreases |ops|
  {
    if ops != [] {
      DataStays(Step(s, ops[0]).0, ops[1..]);
    }
  }

  /** The data is that of the last save that was accepted and not a mere renewal. */
  lemma DataIsLastAccepted(s: Store, before: seq<Op>, save: Op, after: seq<Op>)
    requires Writes(After(s, before), save)
    requires WritesNothing(After(s, before + [save]), after)
    ensures Fields(After(s, before + [save] + after)).data == save.saved
  {
    AfterConcat(s, before + [save], after);
    AfterConcat(s, before, [save]);
    assert [save][1..] == [];
    assert After(After(s, before), [save]) == Step(After(s, before), save).0;
    DataStays(After(s, before + [save]), after);
  }

  // ------------------------------------------------------------ the end of a lifetime

  /** Fencing is per lifetime: when the key has expired, its generations start again, and
      the same generation is granted to another owner, or an old token becomes good. */
  lemma ExpiryRestartsGenerations()
    ensures var a := Step(None, Load("a", 0));
            var b := Step(None, Load("b", 0));
            && a.1 == Granted("a", 1, "") && b.1 == Granted("b", 1, "")
    ensures var gone := After(None, [Load("a", 0), Release("a", 1)]);
            var again := After(None, [Load("a", 0)]);
            && !Holds(gone, "a", 1) && !CanHold(gone, "a", 1)
            && Holds(again, "a", 1)
  {
    var ops := [Load("a", 0), Release("a", 1)];
    assert ops[1..] == [Release("a", 1)] && ops[1..][1..] == [] && [Load("a", 0)][1..] == [];
    var one := Step(None, Load("a", 0)).0;
    assert After(None, ops) == Step(one, Release("a", 1)).0;
    RefusedForeverIff(After(None, ops), "a", 1);
  }
}
