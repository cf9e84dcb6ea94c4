/** The application logic of main.cpp: the start-up status chain of `main`, the
    self-rescheduling `send_message`, `receive_message` and the LoRaWAN event handler.
    The stack's return codes, the encoded temperature payload and the bytes the stack
    writes into the receive buffer are parameters. */
module Uplink {
  import opened LoRaWan
  import opened EventQueues

  /** Time between two regular uplinks, in milliseconds (`TX_INTERVAL`). */
  const TX_INTERVAL: nat := 10000
  /** Retry delay after a duty-cycle "would block", in milliseconds. */
  const DUTY_CYCLE_BACKOFF: nat := 3000
  /** Application port used for both uplinks and downlinks. */
  const APP_PORT: nat := 15
  /** Size of the stack-allocated receive buffer `rx_buffer`. */
  const RX_BUFFER_SIZE: nat := 50
  /** Retries requested for confirmed messages at start-up. */
  const CONFIRMED_MSG_RETRIES: nat := 3
  /** Join attempts requested in the over-the-air activation parameters. */
  const CONNECT_TRIALS: nat := 10

  /** The calls `main` makes into the stack when every one of them succeeds. */
  const STARTUP_CALLS: seq<StackCall> :=
    [Initialize, AddAppCallbacks, SetConfirmedMsgRetries(CONFIRMED_MSG_RETRIES),
     DisableAdaptiveDatarate, Connect(Otaa(CONNECT_TRIALS))]

  datatype StartupOutcome = Exited(code: int) | Dispatching

  // ---------------------------------------------------------------- start-up

  /** Entries the LoRaWAN stack posts into the queue it was handed: its own timers only. */
  ghost predicate StackEntries(posts: seq<Entry>)
  {
    forall i :: 0 <= i < |posts| ==> posts[i].callback.StackTimer?
  }

  /** The stack's own `call_in`s into the shared queue, made inside one of its calls. */
  method PostStackTimers(q: EventQueue, posts: seq<Entry>)
    modifies q
    ensures q.pending == old(q.pending) + posts
    ensures q.dispatchBroken == old(q.dispatchBroken)
  {
    var i := 0;
    while i < |posts|
      invariant 0 <= i <= |posts|
      invariant q.pending == old(q.pending) + posts[..i]
      invariant q.dispatchBroken == old(q.dispatchBroken)
    {
      q.CallIn(posts[i].delayMs, posts[i].callback);
      i := i + 1;
    }
    assert posts[..i] == posts;
  }

  /** `main`: a chain of status checks with early returns. The result of
      `add_app_callbacks` is ignored by the source, so it has no status here. The
      static `ev_queue` (constructed before `main` runs) is returned; `initPosts` and
      `connectPosts` are what the stack posts into it during `initialize` and `connect`. */
  method Startup(initStatus: int, retriesStatus: int, adrStatus: int, connectStatus: int,
                 initPosts: seq<Entry>, connectPosts: seq<Entry>)
    returns (outcome: StartupOutcome, calls: seq<StackCall>, q: EventQueue)
    requires StackEntries(initPosts) && StackEntries(connectPosts)
    ensures fresh(q)
    ensures outcome == Dispatching ==> q.pending == initPosts + connectPosts
    // no application send is armed before CONNECTED, and dispatch is not broken
    ensures CountSends(q.pending) == 0 && !q.dispatchBroken
    ensures outcome == Dispatching || outcome == Exited(-1)
    ensures outcome == Dispatching <==>
      initStatus == STATUS_OK && retriesStatus == STATUS_OK && adrStatus == STATUS_OK &&
      (connectStatus == STATUS_OK || connectStatus == STATUS_CONNECT_IN_PROGRESS)
    ensures initStatus != STATUS_OK ==> calls == STARTUP_CALLS[..1]
    ensures initStatus == STATUS_OK && retriesStatus != STATUS_OK ==> calls == STARTUP_CALLS[..3]
    ensures initStatus == STATUS_OK && retriesStatus == STATUS_OK && adrStatus != STATUS_OK ==>
      calls == STARTUP_CALLS[..4]
    ensures initStatus == STATUS_OK && retriesStatus == STATUS_OK && adrStatus == STATUS_OK ==>
      calls == STARTUP_CALLS
  {
    q := new EventQueue();
    calls := [Initialize];
    PostStackTimers(q, initPosts);
    assert q.pending == initPosts;
    CountSendsNone(initPosts);
    if initStatus != STATUS_OK {
      return Exited(-1), calls, q;
    }
    calls := calls + [AddAppCallbacks];
    calls := calls + [SetConfirmedMsgRetries(CONFIRMED_MSG_RETRIES)];
    if retriesStatus != STATUS_OK {
      return Exited(-1), calls, q;
    }
    calls := calls + [DisableAdaptiveDatarate];
    if adrStatus != STATUS_OK {
      return Exited(-1), calls, q;
    }
    calls := calls + [Connect(Otaa(CONNECT_TRIALS))];
    PostStackTimers(q, connectPosts);
    CountSendsNone(connectPosts);
    CountSendsAppend(initPosts, connectPosts);
    if connectStatus == STATUS_OK || connectStatus == STATUS_CONNECT_IN_PROGRESS {
      outcome := Dispatching;
    } else {
      outcome := Exited(-1);
    }
  }

  lemma {:induction false} CountSendsNone(posts: seq<Entry>)
    requires StackEntries(posts)
    ensures CountSends(posts) == 0
  {
    if posts != [] {
      assert StackEntries(posts[1..]) by {
        forall i | 0 <= i < |posts[1..]| ensures posts[1..][i].callback.StackTimer? {
          assert posts[1..][i] == posts[i + 1];
        }
      }
      CountSendsNone(posts[1..]);
    }
  }

  // ---------------------------------------------------------------- sending

  /** The delay with which `send_message` re-arms itself after the stack's send
      returned `retcode`: a short backoff on a duty-cycle block, the full interval
      after any other error and after success. */
  function NextSendDelay(retcode: Int16): (d: nat)
    ensures retcode >= 0 ==> d == TX_INTERVAL
    ensures retcode == STATUS_WOULD_BLOCK ==> d == DUTY_CYCLE_BACKOFF
    ensures retcode < 0 && retcode != STATUS_WOULD_BLOCK ==> d == TX_INTERVAL
    ensures d < TX_INTERVAL <==> retcode == STATUS_WOULD_BLOCK
  {
    if retcode < 0 then
      if retcode == STATUS_WOULD_BLOCK then DUTY_CYCLE_BACKOFF else TX_INTERVAL
    else TX_INTERVAL
  }

  /** The pending entries after one call of `send_message` whose send returned `retcode`. */
  function AfterSend(pending: seq<Entry>, retcode: Int16): seq<Entry>
  {
    pending + [Entry(NextSendDelay(retcode), SendMessageTask)]
  }

  /** The pending entries after consecutive calls of `send_message`, the i-th of whose
      sends returned `retcodes[i]` (for instance on repeated UPLINK_REQUIRED events). */
  function AfterSends(pending: seq<Entry>, retcodes: seq<Int16>): seq<Entry>
    decreases |retcodes|
  {
    if retcodes == [] then pending
    else AfterSends(AfterSend(pending, retcodes[0]), retcodes[1..])
  }

  /** Every `send_message` entry will run after the backoff or the full interval. */
  ghost predicate DelaysValid(pending: seq<Entry>)
  {
    forall i :: 0 <= i < |pending| && pending[i].callback == SendMessageTask ==>
      pending[i].delayMs == DUTY_CYCLE_BACKOFF || pending[i].delayMs == TX_INTERVAL
  }

  /** `send_message`: sends the encoded reading on port 15 unconfirmed and re-arms itself
      exactly once, with the delay chosen by the send's return code. */
  method SendMessage(q: EventQueue, payload: seq<byte>, retcode: Int16) returns (call: StackCall)
    modifies q
    ensures call == Send(APP_PORT, payload, {Unconfirmed})
    ensures q.pending == AfterSend(old(q.pending), retcode)
    ensures q.dispatchBroken == old(q.dispatchBroken)
    ensures CountSends(q.pending) == CountSends(old(q.pending)) + 1
    ensures DelaysValid(old(q.pending)) ==> DelaysValid(q.pending)
  {
    call := Send(APP_PORT, payload, {Unconfirmed});
    if retcode < 0 {
      if retcode == STATUS_WOULD_BLOCK {
        q.CallIn(DUTY_CYCLE_BACKOFF, SendMessageTask);
      } else {
        q.CallIn(TX_INTERVAL, SendMessageTask);
      }
    } else {
      q.CallIn(TX_INTERVAL, SendMessageTask);
    }
    CountSendsAppend(old(q.pending), [Entry(NextSendDelay(retcode), SendMessageTask)]);
  }

  lemma {:induction false} AfterSendsGrowth(pending: seq<Entry>, retcodes: seq<Int16>)
    ensures |AfterSends(pending, retcodes)| == |pending| + |retcodes|
    ensures AfterSends(pending, retcodes)[..|pending|] == pending
    ensures CountSends(AfterSends(pending, retcodes)) == CountSends(pending) + |retcodes|
    ensures forall k :: 0 <= k < |retcodes| ==>
      AfterSends(pending, retcodes)[|pending| + k] == Entry(NextSendDelay(retcodes[k]), SendMessageTask)
    decreases |retcodes|
  {
    if retcodes != [] {
      var next := AfterSend(pending, retcodes[0]);
      AfterSendsGrowth(next, retcodes[1..]);
      CountSendsAppend(pending, [Entry(NextSendDelay(retcodes[0]), SendMessageTask)]);
      var r := AfterSends(pending, retcodes);
      assert r == AfterSends(next, retcodes[1..]);
      assert r[..|pending|] == next[..|next|][..|pending|];
      forall k | 0 <= k < |retcodes|
        ensures r[|pending| + k] == Entry(NextSendDelay(retcodes[k]), SendMessageTask)
      {
        if k > 0 {
          assert retcodes[k] == retcodes[1..][k - 1];
          assert r[|pending| + k] == r[|next| + (k - 1)];
        } else {
          assert r[|pending|] == r[..|next|][|pending|];
        }
      }
    }
  }

  /** However many sends happen and whatever they return, every pending `send_message`
      entry still waits either the backoff or the full interval. */
  lemma AfterSendsKeepDelaysValid(pending: seq<Entry>, retcodes: seq<Int16>)
    requires DelaysValid(pending)
    ensures DelaysValid(AfterSends(pending, retcodes))
  {
    AfterSendsGrowth(pending, retcodes);
    var r := AfterSends(pending, retcodes);
    forall i | 0 <= i < |r| && r[i].callback == SendMessageTask
      ensures r[i].delayMs == DUTY_CYCLE_BACKOFF || r[i].delayMs == TX_INTERVAL
    {
      if i < |pending| {
        assert r[i] == r[..|pending|][i];
      } else {
        var k := i - |pending|;
        assert r[i] == r[|pending| + k];
        assert r[i].delayMs == NextSendDelay(retcodes[k]);
      }
    }
  }

  /** No cancellation: whenever a `send_message` entry is already pending, a further send
      (on UPLINK_REQUIRED, say) leaves at least two, so send timers can be outstanding
      side by side. */
  lemma PendingSendsCanDouble(pending: seq<Entry>, retcode: Int16)
    requires CountSends(pending) >= 1
    ensures CountSends(AfterSend(pending, retcode)) == CountSends(pending) + 1 >= 2
  {
    CountSendsAppend(pending, [Entry(NextSendDelay(retcode), SendMessageTask)]);
  }

  // ---------------------------------------------------------------- receiving

  /** `rx_buffer` after the stack's receive wrote `written` into its front: the rest
      keeps the zeros it was initialised with. */
  function RxBuffer(written: seq<byte>): (b: seq<byte>)
    requires |written| <= RX_BUFFER_SIZE
    ensures |b| == RX_BUFFER_SIZE
    ensures b[..|written|] == written
    ensures forall k :: |written| <= k < RX_BUFFER_SIZE ==> b[k] == 0
  {
    written + seq(RX_BUFFER_SIZE - |written|, _ => 0 as byte)
  }

  /** The bytes `receive_message` reports when the receive returned `retcode`. */
  function Reported(written: seq<byte>, retcode: Int16): (s: seq<byte>)
    requires |written| <= RX_BUFFER_SIZE && retcode <= RX_BUFFER_SIZE
    ensures retcode < 0 ==> s == []
    ensures retcode >= 0 ==> |s| == retcode && s == RxBuffer(written)[..retcode]
    ensures retcode == |written| ==> s == written
  {
    if retcode < 0 then [] else RxBuffer(written)[..retcode]
  }

  /** `receive_message`: receives into a zeroed 50-byte buffer on port 15, accepting
      confirmed and unconfirmed downlinks, and reports the first `retcode` bytes. */
  method ReceiveMessage(written: seq<byte>, retcode: Int16) returns (call: StackCall, reported: seq<byte>)
    requires |written| <= RX_BUFFER_SIZE && retcode <= RX_BUFFER_SIZE
    ensures call == Receive(APP_PORT, RX_BUFFER_SIZE, {Confirmed, Unconfirmed})
    ensures reported == Reported(written, retcode)
  {
    var rxBuffer := new byte[RX_BUFFER_SIZE](_ => 0);
    call := Receive(APP_PORT, rxBuffer.Length, {Confirmed, Unconfirmed});
    // The receive call itself: the stack copies the downlink into the front of the
    // buffer (this stands for the stack's own copy, not for code of the application).
    forall k | 0 <= k < |written| {
      rxBuffer[k] := written[k];
    }
    assert rxBuffer[..] == RxBuffer(written);
    reported := [];
    if retcode < 0 {
      return;
    }
    // The source's counter is a uint8_t; retcode <= 50 keeps it from wrapping.
    var i := 0;
    while i < retcode
      invariant 0 <= i <= retcode < 0x100
      invariant reported == rxBuffer[..i]
    {
      reported := reported + [rxBuffer[i]];
      i := i + 1;
    }
  }

  // ---------------------------------------------------------------- events

  /** `lora_event_handler`. `payload` and `sendRetcode` are what `send_message` would
      encode and get back, `rxWritten` and `rxRetcode` what `receive_message` would. */
  method HandleEvent(q: EventQueue, e: Event, payload: seq<byte>, sendRetcode: Int16,
                     rxWritten: seq<byte>, rxRetcode: Int16)
    returns (calls: seq<StackCall>, reported: seq<byte>)
    requires |rxWritten| <= RX_BUFFER_SIZE && rxRetcode <= RX_BUFFER_SIZE
    modifies q
    ensures e == Connected ==>
      q.pending == old(q.pending) + [Entry(TX_INTERVAL, SendMessageTask)] &&
      q.dispatchBroken == old(q.dispatchBroken) && calls == []
    ensures e == Disconnected ==> q.pending == old(q.pending) && q.dispatchBroken && calls == []
    ensures e == UplinkRequired ==>
      q.pending == AfterSend(old(q.pending), sendRetcode) &&
      q.dispatchBroken == old(q.dispatchBroken) &&
      calls == [Send(APP_PORT, payload, {Unconfirmed})]
    ensures e == RxDone ==>
      calls == [Receive(APP_PORT, RX_BUFFER_SIZE, {Confirmed, Unconfirmed})] &&
      reported == Reported(rxWritten, rxRetcode)
    ensures e != RxDone ==> reported == []
    ensures e != Connected && e != Disconnected && e != UplinkRequired ==>
      q.pending == old(q.pending) && q.dispatchBroken == old(q.dispatchBroken)
    ensures e != RxDone && e != UplinkRequired ==> calls == []
    // invariants every event keeps
    ensures old(q.pending) <= q.pending
    ensures old(q.dispatchBroken) ==> q.dispatchBroken
    ensures CountSends(q.pending) ==
      CountSends(old(q.pending)) + (if e == Connected || e == UplinkRequired then 1 else 0)
    ensures DelaysValid(old(q.pending)) ==> DelaysValid(q.pending)
  {
    calls, reported := [], [];
    match e {
      case Connected =>
        q.CallIn(TX_INTERVAL, SendMessageTask);
        CountSendsAppend(old(q.pending), [Entry(TX_INTERVAL, SendMessageTask)]);
      case Disconnected =>
        q.BreakDispatch();
      case TxDone =>
      case TxTimeout =>
      case TxError =>
      case TxCryptoError =>
      case TxSchedulingError =>
      case RxDone =>
        var call;
        call, reported := ReceiveMessage(rxWritten, rxRetcode);
        calls := [call];
      case RxTimeout =>
      case RxError =>
      case JoinFailure =>
      case UplinkRequired =>
        var call := SendMessage(q, payload, sendRetcode);
        calls := [call];
      case Other(_) =>
        // MBED_ASSERT("Unknown Event") tests a non-null string literal, so it holds.
    }
  }
}
