/** The shared part of the semaphore as a value: what the linked list, the permit
    counter and the has-waiters flag mean. The linked structure (SemaphoreState) is
    proved to implement these functions, and the protocol (SemaphoreProtocol) takes
    its steps with them. W is a waiter's identity. */
module SemaphoreCore {
  import opened Queues
  import opened Sums

  /** The size of the buffer in which a grant pass collects handles. */
  const WAKE_SLOTS: nat := 16

  datatype Core<W> = Core(permits: int, hasWaiters: bool, queue: seq<W>)

  function LinkTail<W>(c: Core<W>, w: W): Core<W> {
    c.(queue := c.queue + [w], hasWaiters := true)
  }

  function Unlink<W>(c: Core<W>, i: nat): Core<W>
    requires i < |c.queue|
  {
    var q := Without(c.queue, i);
    c.(queue := q, hasWaiters := if q == [] then false else c.hasWaiters)
  }

  /** What the same pointer code does to a node that is in no list: both of its links
      are null, so head and tail become null and every queued waiter is lost. */
  function UnlinkStray<W>(c: Core<W>): Core<W> {
    c.(queue := [], hasWaiters := false)
  }

  function Remove<W(==)>(c: Core<W>, w: W): Core<W> {
    if w in c.queue then Unlink(c, IndexOf(c.queue, w)) else UnlinkStray(c)
  }

  // ----- what one undisturbed pass of grant_locked does -----

  /** How many waiters at the front are granted. */
  function GrantCount(needs: seq<nat>, permits: int): (k: nat)
    ensures k <= |needs|
  {
    if needs == [] || permits < needs[0] then 0 else 1 + GrantCount(needs[1..], permits - needs[0])
  }

  /** It is the longest prefix whose total fits the permits. */
  lemma {:induction false} GrantCountIsLongest(needs: seq<nat>, permits: nat, j: nat)
    requires j <= |needs|
    ensures Sum(needs[..j]) <= permits <==> j <= GrantCount(needs, permits)
  {
    if j == 0 {
    } else {
      assert needs[..j][0] == needs[0] && needs[..j][1..] == needs[1..][..j - 1];
      if permits < needs[0] {
        SumNonNegative(needs[1..][..j - 1]);
      } else {
        GrantCountIsLongest(needs[1..], permits - needs[0], j - 1);
      }
    }
  }
}
