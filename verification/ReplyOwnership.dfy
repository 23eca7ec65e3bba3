/**
 Who closes the reply of a SafeCall (actor/manager.go, actor/invoke.go, actor/handler.go).

 A call is a race between the actor, which sends one result on a channel of capacity 1, and
 the caller, which takes it or, when its context is done, closes the channel and drains it.
 Each step below is one channel operation or one call of Close; between any two steps the
 other side may act.
 */
module ReplyOwnership {
  import opened Prelude

  type Rep = nat

  /** `Err` results, and handlers that return no reply, carry None. */
  datatype Sender = Computing | Recovering | Sent | Dead

  datatype Caller = Waiting | Draining | Got(value: Option<Rep>) | GaveUp

  datatype Call = Call(
    reply: Option<Rep>,          // what the handler will send
    buffer: Option<Option<Rep>>, // the channel's one slot
    shut: bool,                  // the caller has closed the channel
    sender: Sender,
    caller: Caller,
    closes: nat)                 // how often the framework has closed the reply

  function Fresh(reply: Option<Rep>): Call {
    Call(reply, None, false, Computing, Waiting, 0)
  }

  datatype Act =
    | Send      // the actor sends the result
    | Clean     // its deferred recovery closes the reply it still holds
    | Receive   // the caller takes the result
    | Cancel    // the caller's context is done: it closes the channel
    | Drain     // it takes what is left and closes it
    | Return    // the drained channel ends the loop

  predicate Enabled(c: Call, a: Act) {
    match a
    case Send => c.sender == Computing && (c.shut || c.buffer == None) // a full open channel would block
    case Clean => c.sender == Recovering
    case Receive => c.caller == Waiting && c.buffer.Some?
    case Cancel => c.caller == Waiting
    case Drain => c.caller == Draining && c.buffer.Some?
    case Return => c.caller == Draining && c.buffer == None
  }

  function Apply(c: Call, a: Act): Call
    requires Enabled(c, a)
  {
    match a
    case Send =>
      if !c.shut then c.(buffer := Some(c.reply), sender := Sent)
      else c.(sender := if c.reply.Some? then Recovering else Dead) // a send on a closed channel panics
    case Clean => c.(closes := c.closes + 1, sender := Sent)
    case Receive => c.(buffer := None, caller := Got(c.buffer.value))
    case Cancel => c.(shut := true, caller := Draining)
    case Drain => c.(buffer := None, closes := if c.buffer.value.Some? then c.closes + 1 else c.closes)
    case Return => c.(caller := GaveUp)
  }

  predicate Runs(c: Call, acts: seq<Act>)
    decreases |acts|
  {
    acts == [] || (Enabled(c, acts[0]) && Runs(Apply(c, acts[0]), acts[1..]))
  }

  function After(c: Call, acts: seq<Act>): Call
    requires Runs(c, acts)
    decreases |acts|
  {
    if acts == [] then c else After(Apply(c, acts[0]), acts[1..])
  }

  /** Where a reply is: in the actor's hands, on the channel, with the caller, or closed. */
  function Places(c: Call): nat {
    (if c.sender == Computing || c.sender == Recovering then 1 else 0)
    + (if c.buffer.Some? then 1 else 0)
    + (if c.caller.Got? then 1 else 0)
    + c.closes
  }

  predicate Inv(c: Call) {
    && (c.buffer.Some? ==> c.buffer.value == c.reply && c.sender == Sent)
    && (c.caller.Got? ==> c.caller.value == c.reply && c.sender == Sent && c.buffer == None)
    && (c.caller == GaveUp ==> c.buffer == None)
    && (c.shut <==> c.caller == Draining || c.caller == GaveUp)
    && (c.reply.Some? ==> Places(c) == 1 && c.sender != Dead)
    && (c.reply == None ==> c.closes == 0 && c.sender != Recovering)
    && (c.sender == Recovering || c.sender == Dead ==> c.shut)
  }

  lemma StepKeeps(c: Call, a: Act)
    requires Inv(c) && Enabled(c, a)
    ensures Inv(Apply(c, a)) && Apply(c, a).reply == c.reply
  {
  }

  lemma {:induction false} RunKeeps(c: Call, acts: seq<Act>)
    requires Inv(c) && Runs(c, acts)
    ensures Inv(After(c, acts)) && After(c, acts).reply == c.reply
    decreases |acts|
  {
    if acts != [] {
      StepKeeps(c, acts[0]);
      RunKeeps(Apply(c, acts[0]), acts[1..]);
    }
  }

  predicate Over(c: Call) {
    && (c.sender == Sent || c.sender == Dead)
    && (c.caller.Got? || c.caller == GaveUp)
  }

  /** In every interleaving a reply is in exactly one place, and once both sides are done it
      has either been handed to the caller and not closed, or closed exactly once; which of
      the two is decided by whether the caller gave up. */
  lemma HandedOverOrClosedOnce(reply: Rep, acts: seq<Act>)
    requires Runs(Fresh(Some(reply)), acts)
    ensures var c := After(Fresh(Some(reply)), acts);
            && Places(c) == 1
            && (Over(c) ==> if c.caller == GaveUp then c.closes == 1
                            else c.caller == Got(Some(reply)) && c.closes == 0)
  {
    RunKeeps(Fresh(Some(reply)), acts);
  }

  /** What the caller gets is what the handler sent, be it a reply or none; and it gets it
      unless it gave up. */
  lemma CallerGetsTheResult(reply: Option<Rep>, acts: seq<Act>)
    requires Runs(Fresh(reply), acts)
    ensures var c := After(Fresh(reply), acts);
            && (c.caller.Got? ==> c.caller == Got(reply) && c.closes == 0)
            && (Over(c) && !c.shut ==> c.caller == Got(reply))
  {
    RunKeeps(Fresh(reply), acts);
  }

  /** Neither side can be stuck: until both are done some step is enabled, and the send
      never blocks. */
  lemma NeverStuck(reply: Option<Rep>, acts: seq<Act>)
    requires Runs(Fresh(reply), acts)
    ensures var c := After(Fresh(reply), acts);
            && (c.sender == Computing ==> Enabled(c, Send))
            && (!Over(c) ==> exists a :: Enabled(c, a))
  {
    RunKeeps(Fresh(reply), acts);
    var c := After(Fresh(reply), acts);
    if !Over(c) {
      var a := if c.sender == Computing then Send
               else if c.sender == Recovering then Clean
               else if c.caller == Waiting then Cancel
               else if c.buffer.Some? then Drain else Return;
      assert Enabled(c, a);
    }
  }

  /** The actor dies exactly if the handler has no reply to hand over and sends after the
      caller has closed the channel. */
  lemma {:induction false} DiesIff(c: Call, acts: seq<Act>)
    requires Inv(c) && c.sender == Computing && Runs(c, acts)
    ensures After(c, acts).sender == Dead <==>
              c.reply == None && Send in acts && (c.shut || CancelFirst(acts))
    decreases |acts|
  {
    if acts != [] {
      StepKeeps(c, acts[0]);
      var d := Apply(c, acts[0]);
      if acts[0] == Send {
        SenderSettled(d, acts[1..]);
      } else {
        DiesIff(d, acts[1..]);
      }
    }
  }

  /** The channel is closed before the result is sent. */
  predicate CancelFirst(acts: seq<Act>)
    decreases |acts|
  {
    acts != [] && acts[0] != Send && (acts[0] == Cancel || CancelFirst(acts[1..]))
  }

  lemma {:induction false} SenderSettled(c: Call, acts: seq<Act>)
    requires Inv(c) && c.sender != Computing && Runs(c, acts)
    ensures After(c, acts).sender == Dead <==> c.sender == Dead
    decreases |acts|
  {
    if acts != [] {
      StepKeeps(c, acts[0]);
      SenderSettled(Apply(c, acts[0]), acts[1..]);
    }
  }

  /** The two sides as the program runs them, each without interruption by the other. */
  class ReplyChannel {
    const reply: Option<Rep>
    var buffer: Option<Option<Rep>>
    var shut: bool
    var sender: Sender
    var caller: Caller
    ghost var closes: nat

    constructor (reply: Option<Rep>)
      ensures State() == Fresh(reply)
    {
      this.reply := reply;
      buffer, shut, sender, caller, closes := None, false, Computing, Waiting, 0;
    }

    ghost function State(): Call
      reads this
    {
      Call(reply, buffer, shut, sender, caller, closes)
    }

    /** invoke.Invoke: send the handler's result; if the channel turns out closed, the
        deferred recovery closes the reply. */
    method Invoke()
      requires Enabled(State(), Send)
      modifies this`buffer, this`sender, this`closes
      ensures var c := Apply(old(State()), Send);
              State() == if c.sender == Recovering then Apply(c, Clean) else c
      ensures old(shut) && reply.Some? ==> closes == old(closes) + 1
    {
      if !shut {
        buffer := Some(reply);
        sender := Sent;
      } else if reply.Some? {
        closes := closes + 1;
        sender := Sent;
      } else {
        sender := Dead;
      }
    }

    /** safeResult: take the result, or close the channel and drain it. `done` says which of
        the two is ready; nothing is, until a result is there or the context is done. */
    method SafeResult(done: bool) returns (r: Option<Option<Rep>>, ghost path: seq<Act>)
      requires caller == Waiting && (done || buffer.Some?)
      modifies this`buffer, this`shut, this`caller, this`closes
      ensures Runs(old(State()), path) && State() == After(old(State()), path)
      ensures r.Some? <==> !done
      ensures r.Some? ==> r == old(buffer) && caller == Got(r.value)
      ensures r.None? ==> caller == GaveUp && shut && buffer == None
    {
      if !done {
        path := [Receive];
        r, buffer := buffer, None;
        caller := Got(r.value);
        return;
      }
      ghost var c := State();
      shut, caller := true, Draining;
      path := [Cancel];
      ghost var more := [];
      while buffer.Some?
        invariant shut && caller == Draining && sender == old(sender)
        invariant buffer.Some? ==> more == [] && State() == Apply(c, Cancel)
        invariant Runs(Apply(c, Cancel), more) && State() == After(Apply(c, Cancel), more)
        invariant |more| <= 1
        decreases if buffer.Some? then 1 else 0
      {
        if buffer.value.Some? {
          closes := closes + 1;
        }
        buffer := None;
        more := [Drain];
      }
      caller := GaveUp;
      r := None;
      path := [Cancel] + more + [Return];
      RunsSnoc(Apply(c, Cancel), more, Return);
      assert path[1..] == more + [Return];
    }
  }

  lemma {:induction false} RunsSnoc(c: Call, acts: seq<Act>, a: Act)
    requires Runs(c, acts) && Enabled(After(c, acts), a)
    ensures Runs(c, acts + [a]) && After(c, acts + [a]) == Apply(After(c, acts), a)
    decreases |acts|
  {
    if acts == [] {
      assert [a][1..] == [];
    } else {
      RunsSnoc(Apply(c, acts[0]), acts[1..], a);
      assert (acts + [a])[1..] == acts[1..] + [a];
    }
  }
}
