/** The shared state of a oneshot channel as a value, and its critical sections. V is the
    type sent, H a coroutine handle. OneshotState implements these functions in place;
    OneshotProtocol takes its steps with them. */
module OneshotCore {
  import opened Options

  datatype Cell<V, H> = Cell(
    value: Option<V>,
    ready: bool,
    senderDropped: bool,
    receiverDropped: bool,
    cancelled: bool,
    waiter: Option<H>)

  datatype Outcome<V> = Value(v: V) | Cancelled | ChannelClosed

  function Empty<V, H>(): Cell<V, H> {
    Cell(None, false, false, false, false, None)
  }

  predicate Accepts<V, H>(c: Cell<V, H>) {
    !c.ready && !c.receiverDropped && !c.cancelled
  }

  predicate Resolved<V, H>(c: Cell<V, H>) {
    c.ready || c.senderDropped || c.cancelled
  }

  /** set_value; the waiter it takes out is the handle to wake. */
  function SetValue<V, H>(c: Cell<V, H>, v: V): Cell<V, H> {
    if Accepts(c) then c.(value := Some(v), ready := true, waiter := None) else c
  }

  /** mark_sender_dropped. */
  function DropSender<V, H>(c: Cell<V, H>): Cell<V, H> {
    if Resolved(c) then c else c.(senderDropped := true, waiter := None)
  }

  /** mark_receiver_dropped. */
  function DropReceiver<V, H>(c: Cell<V, H>): Cell<V, H> {
    c.(receiverDropped := true)
  }

  /** cancel_and_take_waiter. */
  function Cancel<V, H>(c: Cell<V, H>): Cell<V, H> {
    if Resolved(c) then c else c.(cancelled := true, waiter := None)
  }

  /** The end of await_suspend. */
  function Register<V, H>(c: Cell<V, H>, h: H): Cell<V, H> {
    if Resolved(c) then c else c.(waiter := Some(h))
  }

  /** await_resume, after the guard is disarmed. */
  function Finish<V, H>(c: Cell<V, H>, scopeCancelled: bool): Outcome<V> {
    if c.ready && c.value.Some? then Value(c.value.value)
    else if c.cancelled || scopeCancelled then Cancelled
    else ChannelClosed
  }
}
