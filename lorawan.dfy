/** The part of the mbed LoRaWAN stack's interface that the application consumes:
    status codes, the events it delivers to the application callback, and the calls
    the application makes into it. The stack itself is not part of this model; its
    return codes are inputs to the operations of module Uplink. */
module LoRaWan {

  /** A byte as the stack and the application buffers hold it. */
  newtype byte = x: int | 0 <= x < 0x100

  /** The `int16_t` the application stores the send and receive return codes in. */
  type Int16 = x: int | -0x8000 <= x < 0x8000

  /** `lorawan_status_t` values the application compares against (mbed OS numbering). */
  const STATUS_OK: int := 0
  const STATUS_WOULD_BLOCK: int := -1001
  const STATUS_CONNECT_IN_PROGRESS: int := -1016

  /** Message flags passed to send and receive. */
  datatype MsgFlag = Unconfirmed | Confirmed

  /** Over-the-air activation parameters handed to `connect`; the device keys are left out. */
  datatype ConnectParams = Otaa(trials: nat)

  /** One call of the application into the stack, in the order it is made. */
  datatype StackCall =
    | Initialize
    | AddAppCallbacks
    | SetConfirmedMsgRetries(count: nat)
    | DisableAdaptiveDatarate
    | Connect(params: ConnectParams)
    | Send(port: nat, payload: seq<byte>, flags: set<MsgFlag>)
    | Receive(port: nat, length: nat, flags: set<MsgFlag>)

  /** `lorawan_event_t` as delivered to the application's event callback; `Other` stands
      for any value the handler does not name (later stack versions add events). */
  datatype Event =
    | Connected
    | Disconnected
    | TxDone
    | TxTimeout
    | TxError
    | TxCryptoError
    | TxSchedulingError
    | RxDone
    | RxTimeout
    | RxError
    | JoinFailure
    | UplinkRequired
    | Other(code: int)
}
