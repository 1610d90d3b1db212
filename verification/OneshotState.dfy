/** The oneshot channel's shared state as the source has it, updated in place; every
    method is one critical section of its mutex. */
module OneshotState {
  import opened OneshotCore
  import opened Options

  class State<V, H> {
    var value: Option<V>
    var ready: bool
    var senderDropped: bool
    var receiverDropped: bool
    var cancelled: bool
    var waiter: Option<H>

    function Abs(): Cell<V, H>
      reads this
    {
      Cell(value, ready, senderDropped, receiverDropped, cancelled, waiter)
    }

    /** A value is there exactly when the channel is ready, one resolution excludes the
        others, and nobody waits on a resolved channel. */
    ghost predicate Valid()
      reads this
    {
      && (ready <==> value.Some?)
      && !(ready && senderDropped) && !(ready && cancelled) && !(senderDropped && cancelled)
      && (waiter.Some? ==> !ready && !senderDropped && !cancelled)
    }

    constructor ()
      ensures Valid() && Abs() == Empty()
    {
      value, ready, senderDropped, receiverDropped, cancelled, waiter := None, false, false, false, false, None;
    }

    /** Called while a sender exists; hands the value back when it is not taken. */
    method SetValue(v: V) returns (back: Option<V>, wake: Option<H>)
      requires Valid() && !senderDropped
      modifies this
      ensures Valid() && Abs() == OneshotCore.SetValue(old(Abs()), v)
      ensures back == if old(ready || receiverDropped || cancelled) then Some(v) else None
      ensures back == None ==> value == Some(v) && ready && waiter == None && wake == old(waiter)
      ensures back == None ==> senderDropped == old(senderDropped) && !receiverDropped && !cancelled
      ensures back != None ==> Abs() == old(Abs()) && wake == None
    {
      if ready || receiverDropped || cancelled {
        return Some(v), None;
      }
      value := Some(v);
      ready := true;
      back, wake := None, waiter;
      waiter := None;
    }

    method MarkSenderDropped() returns (wake: Option<H>)
      requires Valid()
      modifies this
      ensures Valid() && Abs() == DropSender(old(Abs()))
      ensures wake == old(waiter) && waiter == None
      ensures senderDropped == !old(ready || cancelled)
      ensures value == old(value) && ready == old(ready) && cancelled == old(cancelled)
      ensures receiverDropped == old(receiverDropped)
    {
      wake := None;
      if ready || senderDropped || cancelled {
        return;
      }
      senderDropped := true;
      wake, waiter := waiter, None;
    }

    method MarkReceiverDropped()
      requires Valid()
      modifies this`receiverDropped
      ensures Valid() && Abs() == DropReceiver(old(Abs())) && receiverDropped
    {
      receiverDropped := true;
    }

    method CancelAndTakeWaiter() returns (took: bool)
      requires Valid()
      modifies this
      ensures Valid() && Abs() == Cancel(old(Abs()))
      ensures (took <==> old(waiter).Some?) && waiter == None
      ensures cancelled == !old(ready || senderDropped)
      ensures value == old(value) && ready == old(ready) && senderDropped == old(senderDropped)
      ensures receiverDropped == old(receiverDropped)
    {
      if ready || senderDropped || cancelled {
        return false;
      }
      cancelled := true;
      took := waiter.Some?;
      waiter := None;
    }

    method RegisterWaiter(h: H) returns (suspended: bool)
      requires Valid() && waiter == None
      modifies this`waiter
      ensures Valid() && Abs() == Register(old(Abs()), h)
      ensures suspended == !(ready || senderDropped || cancelled)
      ensures waiter == if suspended then Some(h) else None
    {
      if ready || senderDropped || cancelled {
        return false;
      }
      waiter := Some(h);
      return true;
    }

    method TakeOutcome(scopeCancelled: bool) returns (r: Outcome<V>)
      requires Valid()
      ensures r == Finish(Abs(), scopeCancelled)
      ensures ready ==> r.Value? && value == Some(r.v)
      ensures !ready && (cancelled || scopeCancelled) ==> r == Cancelled
      ensures !ready && !cancelled && !scopeCancelled ==> r == ChannelClosed
    {
      if ready {
        return Value(value.value);
      }
      if cancelled || scopeCancelled {
        return Cancelled;
      }
      return ChannelClosed;
    }
  }
}
