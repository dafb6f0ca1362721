/**
 A customer's life as a sequence of calls on its public surface, starting
 from a given stored rate (`None` for a new customer): assignments through
 the setter, reads through the getter and discount computations. Only an
 assignment writes the field, so each reply is fixed by the last
 assignment before it.
 */
module Lifecycle {
  import opened Discount
  import opened CustomerModel

  /** One call on a customer. */
  datatype Call = Assign(value: Option<real>) | Read | Apply(amount: real)

  /** What a call gives back: nothing for the setter, the stored rate for
      the getter, the discounted amount for `applyDiscount`. */
  datatype Reply = Done | RateIs(rate: Option<real>) | Price(amount: real)

  /** The stored rate after one call. */
  function Step(rate: Option<real>, call: Call): (next: Option<real>) {
    match call
    case Assign(v) => v
    case _ => rate
  }

  /** The reply to one call made while `rate` is stored. */
  function Answer(rate: Option<real>, call: Call): (reply: Reply) {
    match call
    case Assign(_) => Done
    case Read => RateIs(rate)
    case Apply(a) => Price(Discounted(rate, a))
  }

  /** Makes one call on a customer through its class methods: the reply and
      the new stored rate are those `Answer` and `Step` give. */
  method Perform(c: Customer, call: Call) returns (reply: Reply)
    modifies c
    ensures reply == Answer(old(c.rate), call)
    ensures c.rate == Step(old(c.rate), call)
  {
    match call
    case Assign(v) =>
      c.SetDiscountRate(v);
      reply := Done;
    case Read =>
      var r := c.DiscountRate();
      reply := RateIs(r);
    case Apply(a) =>
      var d := c.ApplyDiscount(a);
      reply := Price(d);
  }

  /** The stored rate after the calls, made one after the other. */
  function RateAfter(rate: Option<real>, calls: seq<Call>): (final: Option<real>)
    decreases |calls|
  {
    if calls == [] then rate else RateAfter(Step(rate, calls[0]), calls[1..])
  }

  /** The replies to the calls, made one after the other. */
  function Replies(rate: Option<real>, calls: seq<Call>): (out: seq<Reply>)
    ensures |out| == |calls|
    decreases |calls|
  {
    if calls == [] then []
    else [Answer(rate, calls[0])] + Replies(Step(rate, calls[0]), calls[1..])
  }

  /** The value of the last assignment among the calls, or `init` when there
      is none; read from the end of the sequence. */
  function LastAssigned(init: Option<real>, calls: seq<Call>): (last: Option<real>)
    decreases |calls|
  {
    if calls == [] then init
    else if calls[|calls| - 1].Assign? then calls[|calls| - 1].value
    else LastAssigned(init, calls[..|calls| - 1])
  }

  /** One more call acts on the rate the earlier calls left behind. */
  lemma {:induction false} RateAfterAppend(rate: Option<real>, calls: seq<Call>, call: Call)
    ensures RateAfter(rate, calls + [call]) == Step(RateAfter(rate, calls), call)
    decreases |calls|
  {
    if calls != [] {
      assert (calls + [call])[1..] == calls[1..] + [call];
      RateAfterAppend(Step(rate, calls[0]), calls[1..], call);
    }
  }

  /** Last write wins: after any calls the stored rate is the value most
      recently assigned, or the starting rate when nothing was assigned. */
  lemma {:induction false} LastWriteWins(init: Option<real>, calls: seq<Call>)
    ensures RateAfter(init, calls) == LastAssigned(init, calls)
    decreases |calls|
  {
    if calls != [] {
      var front, last := calls[..|calls| - 1], calls[|calls| - 1];
      assert calls == front + [last];
      RateAfterAppend(init, front, last);
      LastWriteWins(init, front);
    }
  }

  /** Reads and discount computations leave the stored rate as it was. */
  lemma {:induction false} ReadOnlyCallsKeepRate(rate: Option<real>, calls: seq<Call>)
    requires forall i :: 0 <= i < |calls| ==> !calls[i].Assign?
    ensures RateAfter(rate, calls) == rate
    decreases |calls|
  {
    if calls != [] {
      ReadOnlyCallsKeepRate(Step(rate, calls[0]), calls[1..]);
    }
  }

  /** The reply to the i-th call is given by the rate the calls before it left. */
  lemma {:induction false} ReplyAt(rate: Option<real>, calls: seq<Call>, i: nat)
    requires i < |calls|
    ensures Replies(rate, calls)[i] == Answer(RateAfter(rate, calls[..i]), calls[i])
    decreases i
  {
    if i > 0 {
      assert calls[..i][1..] == calls[1..][..i - 1];
      ReplyAt(Step(rate, calls[0]), calls[1..], i - 1);
    }
  }

  /** Every read returns the value most recently assigned before it, and every
      discount is computed from that value; from a new customer (`init` is
      `None`) with nothing assigned yet, reads give `None` and discounts
      give the amount back. */
  lemma ReplyFollowsLastAssignment(init: Option<real>, calls: seq<Call>, i: nat)
    requires i < |calls|
    ensures calls[i] == Read ==> Replies(init, calls)[i] == RateIs(LastAssigned(init, calls[..i]))
    ensures calls[i].Apply? ==>
      Replies(init, calls)[i] == Price(Discounted(LastAssigned(init, calls[..i]), calls[i].amount))
    ensures calls[i].Assign? ==> Replies(init, calls)[i] == Done
  {
    ReplyAt(init, calls, i);
    LastWriteWins(init, calls[..i]);
  }

  /** Until a rate is first assigned, a new customer gives every amount back undiscounted. */
  lemma {:induction false} NewCustomerNoDiscount(calls: seq<Call>, i: nat)
    requires i < |calls| && calls[i].Apply?
    requires forall j :: 0 <= j < i ==> !calls[j].Assign?
    ensures Replies(None, calls)[i] == Price(calls[i].amount)
  {
    ReplyAt(None, calls, i);
    ReadOnlyCallsKeepRate(None, calls[..i]);
  }
}
