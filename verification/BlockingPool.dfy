/** The blocking pool's queue as the source has it: a deque and a stop flag under one
    mutex. J is the identity of a control block. */
module BlockingPool {
  import opened Queues

  datatype Next<J> = Run(job: J) | Exit

  class Pool<J(==)> {
    var queue: seq<J>
    var stop: bool

    constructor ()
      ensures queue == [] && !stop
    {
      queue, stop := [], false;
    }

    method Enqueue(item: J) returns (accepted: bool)
      modifies this`queue
      ensures accepted <==> !stop
      ensures queue == if accepted then old(queue) + [item] else old(queue)
    {
      if stop {
        return false;
      }
      queue := queue + [item];
      return true;
    }

    /** Erases the first occurrence. */
    method TryCancel(item: J) returns (erased: bool)
      modifies this`queue
      ensures erased <==> item in old(queue)
      ensures queue == if erased then Without(old(queue), IndexOf(old(queue), item)) else old(queue)
    {
      var i := 0;
      while i < |queue| && queue[i] != item
        invariant i <= |queue| && queue == old(queue)
        invariant forall k :: 0 <= k < i ==> queue[k] != item
      {
        i := i + 1;
      }
      if i == |queue| {
        return false;
      }
      FirstIndex(queue, item, i);
      queue := Without(queue, i);
      return true;
    }

    /** A worker past its wait: the front of the queue, or the end of the loop. */
    method NextJob() returns (r: Next<J>)
      requires queue != [] || stop
      modifies this`queue
      ensures old(queue) != [] ==> r == Run(old(queue)[0]) && queue == old(queue)[1..]
      ensures old(queue) == [] ==> r == Exit && queue == []
    {
      if queue == [] {
        return Exit;
      }
      r := Run(queue[0]);
      queue := queue[1..];
    }

    method Stop()
      modifies this`stop
      ensures stop
    {
      stop := true;
    }
  }

  lemma {:induction false} FirstIndex<J>(q: seq<J>, item: J, i: nat)
    requires i < |q| && q[i] == item && forall k :: 0 <= k < i ==> q[k] != item
    ensures IndexOf(q, item) == i
  {
    if i == 0 {
    } else {
      FirstIndex(q[1..], item, i - 1);
    }
  }
}
