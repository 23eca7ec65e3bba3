/**
 What the nodes see of a key: every answer of a script follows from the answers given before
 it, by a rule that knows nothing of owners stored or generations counted.
 */
module LeaseReplies {
  import opened Prelude
  import opened Lease

  /** What the answers so far tell: who holds which lease, the last generation mentioned, and
      the data of the last save that was accepted and was not a renewal. */
  datatype View = View(token: Option<(Owner, nat)>, gen: nat, data: string)

  const UNSEEN: View := View(None, 0, "")

  function Notice(v: View, op: Op, reply: Reply): View {
    match reply
    case Granted(owner, gen, _) => v.(token := Some((owner, gen)), gen := gen)
    case Forced(gen) => v.(token := None, gen := gen)
    case Accepted =>
      if op.Release? then v.(token := None)
      else if op.Save? && !op.renewOnly then v.(data := op.saved)
      else v
    case _ => v
  }

  /** The view after a run on a key that was not there. */
  function Seen(ops: seq<Op>): View {
    if ops == [] then UNSEEN
    else
      var front := ops[..|ops| - 1];
      Notice(Seen(front), ops[|ops| - 1], Step(After(None, front), ops[|ops| - 1]).1)
  }

  /** The rule: a load is refused only while somebody else holds a lease that has time left,
      and is answered with that holder; it continues the caller's own lease or begins the next,
      and hands over the last data saved. A save or release is accepted exactly from the
      holder. */
  function Expected(v: View, op: Op): Reply {
    match op
    case Load(owner, pttl) =>
      if v.token.Some? && v.token.value.0 == owner then Granted(owner, v.token.value.1, v.data)
      else if v.token.Some? && pttl > 0 then Taken(v.token.value.0, v.token.value.1)
      else Granted(owner, v.gen + 1, v.data)
    case Save(owner, gen, _, _) => if v.token.Some? && v.token.value == (owner, gen) then Accepted else Refused
    case Release(owner, gen) => if v.token.Some? && v.token.value == (owner, gen) then Accepted else Refused
    case ForceRelease => Forced(v.gen + 1)
  }

  /** Every node has a name. */
  predicate Named(op: Op) {
    match op
    case Load(owner, _) => owner != ""
    case Save(owner, _, _, _) => owner != ""
    case Release(owner, _) => owner != ""
    case ForceRelease => true
  }

  predicate Matches(s: Store, v: View) {
    var r := Fields(s);
    && v.token == (if r.owner == "" then None else Some((r.owner, r.gen)))
    && v.gen == r.gen && v.data == r.data
    && (s.None? <==> r.gen == 0)
  }

  lemma StepMatches(s: Store, v: View, op: Op)
    requires Matches(s, v) && Named(op)
    ensures var (t, reply) := Step(s, op);
            reply == Expected(v, op) && Matches(t, Notice(v, op, reply))
  {
  }

  lemma {:induction false} RunMatches(ops: seq<Op>)
    requires forall k | 0 <= k < |ops| :: Named(ops[k])
    ensures Matches(After(None, ops), Seen(ops))
    decreases |ops|
  {
    if ops != [] {
      var front, op := ops[..|ops| - 1], ops[|ops| - 1];
      RunMatches(front);
      StepMatches(After(None, front), Seen(front), op);
      assert ops == front + [op];
      AfterConcat(None, front, [op]);
      assert [op][1..] == [];
      assert After(After(None, front), [op]) == Step(After(None, front), op).0;
    }
  }

  /** A caller without a name, while nobody holds the lease: the scripts take it for the
      holder of a lease that was let go, because that is stored as an empty owner. */
  predicate TakenForHolder(v: View, op: Op) {
    v.token.None? &&
    match op
    case Load(owner, _) => owner == "" && v.gen > 0
    case Save(owner, gen, _, _) => owner == "" && gen == v.gen
    case Release(owner, gen) => owner == "" && gen == v.gen
    case ForceRelease => false
  }

  /** After any run of named nodes, within a lifetime of the key, an answer is what the
      answers before it make one expect, unless the caller is nameless and is taken for the
      holder. In particular a granted lease comes with the data of the last accepted save, and
      a refusal names the last lease granted and not let go. */
  lemma AnswersAreExpectedIff(ops: seq<Op>, i: nat)
    requires i < |ops| && forall k | 0 <= k < i :: Named(ops[k])
    ensures ReplyAt(None, ops, i) == Expected(Seen(ops[..i]), ops[i]) <==> !TakenForHolder(Seen(ops[..i]), ops[i])
    ensures Named(ops[i]) ==> !TakenForHolder(Seen(ops[..i]), ops[i])
  {
    RunMatches(ops[..i]);
  }

  /** Said of the data alone: what a grant hands over is what the last accepted save that was
      not a renewal has written, whoever saved it. */
  lemma GrantHandsOverLastSave(ops: seq<Op>, i: nat, j: nat)
    requires i < j < |ops| && forall k | 0 <= k < |ops| :: Named(ops[k])
    requires ops[i].Save? && !ops[i].renewOnly && ReplyAt(None, ops, i) == Accepted
    requires forall k | i < k < j :: !(ops[k].Save? && !ops[k].renewOnly && ReplyAt(None, ops, k) == Accepted)
    requires ReplyAt(None, ops, j).Granted?
    ensures ReplyAt(None, ops, j).data == ops[i].saved
  {
    AnswersAreExpectedIff(ops, j);
    SavedStays(ops, i, j);
  }

  lemma {:induction false} SavedStays(ops: seq<Op>, i: nat, j: nat)
    requires i < j <= |ops| && ops[i].Save? && !ops[i].renewOnly && ReplyAt(None, ops, i) == Accepted
    requires forall k | i < k < j :: !(ops[k].Save? && !ops[k].renewOnly && ReplyAt(None, ops, k) == Accepted)
    ensures Seen(ops[..j]).data == ops[i].saved
    decreases j
  {
    assert ops[..j][..j - 1] == ops[..j - 1];
    if j > i + 1 {
      SavedStays(ops, i, j - 1);
    }
  }
}
