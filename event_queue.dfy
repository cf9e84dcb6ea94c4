/** An abstract view of mbed's `EventQueue`: the callbacks registered with `call_in`
    that have not run yet, in registration order, and whether `break_dispatch` has been
    requested. Timing and the execution of the callbacks are not modelled. */
module EventQueues {

  /** What a pending entry will run. The LoRaWAN stack is handed the same queue at
      initialisation and posts its own callbacks into it; those are opaque here. */
  datatype Callback = SendMessageTask | StackTimer(id: nat)

  datatype Entry = Entry(delayMs: nat, callback: Callback)

  /** Number of pending entries that will run the application's `send_message`. */
  function CountSends(s: seq<Entry>): (n: nat)
    ensures n <= |s|
  {
    if s == [] then 0
    else (if s[0].callback == SendMessageTask then 1 else 0) + CountSends(s[1..])
  }

  lemma {:induction false} CountSendsAppend(s: seq<Entry>, t: seq<Entry>)
    ensures CountSends(s + t) == CountSends(s) + CountSends(t)
  {
    if s == [] {
      assert s + t == t;
    } else {
      assert (s + t)[1..] == s[1..] + t;
      CountSendsAppend(s[1..], t);
    }
  }

  class EventQueue {
    var pending: seq<Entry>
    var dispatchBroken: bool

    /** The statically constructed queue: nothing pending, dispatch not broken. */
    constructor ()
      ensures pending == [] && !dispatchBroken
    {
      pending := [];
      dispatchBroken := false;
    }

    /** `call_in(delay, callback)`: registers one entry and touches nothing else. */
    method CallIn(delayMs: nat, callback: Callback)
      modifies this
      ensures pending == old(pending) + [Entry(delayMs, callback)]
      ensures dispatchBroken == old(dispatchBroken)
    {
      pending := pending + [Entry(delayMs, callback)];
    }

    /** `break_dispatch()`: asks the dispatch loop to stop; nothing pending is removed. */
    method BreakDispatch()
      modifies this
      ensures dispatchBroken
      ensures pending == old(pending)
    {
      dispatchBroken := true;
    }
  }
}
