/** The semaphore's state as the source has it: a permit counter, a flag, and an
    intrusive doubly linked list of waiters, updated in place under the queue lock. */
module SemaphoreState {
  import opened Queues
  import opened SemaphoreCore
  import opened Sums

  class Waiter {
    var prev: Waiter?
    var next: Waiter?
    const need: nat
    var acquired: bool
    var cancelled: bool

    constructor (n: nat)
      ensures need == n && prev == null && next == null && !acquired && !cancelled
    {
      need := n;
      prev, next, acquired, cancelled := null, null, false, false;
    }
  }

  function PrevIn(q: seq<Waiter>, i: nat): Waiter?
    requires i <= |q|
  {
    if i == 0 then null else q[i - 1]
  }

  function NextIn(q: seq<Waiter>, i: nat): Waiter?
    requires i < |q|
  {
    if i == |q| - 1 then null else q[i + 1]
  }

  /** The nodes' own links spell out q. */
  ghost predicate Links(q: seq<Waiter>)
    reads q
  {
    && Distinct(q)
    && (forall i {:trigger q[i].prev} :: 0 <= i < |q| ==> q[i].prev == PrevIn(q, i))
    && (forall i {:trigger q[i].next} :: 0 <= i < |q| ==> q[i].next == NextIn(q, i))
  }

  /** The neighbours of element k point past it. */
  ghost predicate Bypassed(q: seq<Waiter>, k: nat)
    requires k < |q|
    reads q
  {
    && (forall i {:trigger q[i].prev} :: 0 <= i < |q| && i != k ==>
          q[i].prev == if i == k + 1 then PrevIn(q, k) else PrevIn(q, i))
    && (forall i {:trigger q[i].next} :: 0 <= i < |q| && i != k ==>
          q[i].next == if i == k - 1 then NextIn(q, k) else NextIn(q, i))
  }

  lemma BypassedLinks(q: seq<Waiter>, k: nat)
    requires Distinct(q) && k < |q| && Bypassed(q, k)
    ensures Links(Without(q, k))
  {
    var r := Without(q, k);
    forall i | 0 <= i < |r|
      ensures r[i].prev == PrevIn(r, i) && r[i].next == NextIn(r, i)
    {
      assert r[i] == q[if i < k then i else i + 1];
    }
  }

  lemma RestStays(q: seq<Waiter>, k: nat)
    requires Distinct(q) && k < |q|
    ensures q[k] !in Without(q, k)
    ensures forall i :: 0 <= i < |Without(q, k)| ==> Without(q, k)[i] == q[if i < k then i else i + 1]
  {
  }

  lemma HeadOff(q: seq<Waiter>)
    requires Distinct(q) && q != []
    ensures Without(q, 0) == q[1..] && q[0] !in q[1..]
  {
  }

  function Needs(q: seq<Waiter>): seq<nat> {
    seq(|q|, i requires 0 <= i < |q| => q[i].need)
  }

  /** What other threads do to the permit counter during one round of a compare-exchange
      loop: permits released before the load and between load and exchange, and whether
      the weak exchange fails without cause. */
  datatype Interference = Interference(beforeLoad: nat, beforeSwap: nat, spurious: bool)

  const QUIET := Interference(0, 0, false)

  function Round(env: seq<Interference>, i: nat): Interference {
    if i < |env| then env[i] else QUIET
  }

  predicate Undisturbed(env: seq<Interference>) {
    forall i :: 0 <= i < |env| ==> env[i].beforeLoad == 0 && env[i].beforeSwap == 0
  }

  /** The permits that other threads release in the first r rounds. */
  function Released(env: seq<Interference>, r: nat): nat {
    if r == 0 then 0 else Released(env, r - 1) + Round(env, r - 1).beforeLoad + Round(env, r - 1).beforeSwap
  }

  /** How many of the first r exchanges succeed: nothing was released since the load, and the
      exchange did not fail without cause. */
  function Swaps(env: seq<Interference>, r: nat): nat {
    if r == 0 then 0
    else Swaps(env, r - 1) + if Round(env, r - 1).beforeSwap == 0 && !Round(env, r - 1).spurious then 1 else 0
  }

  /** What came in during r rounds of a pass and, if it then stopped at a head that does not
      fit, before the load that showed this. */
  function Came(env: seq<Interference>, r: nat, stopped: bool): nat {
    Released(env, r) + if stopped then Round(env, r).beforeLoad else 0
  }

  lemma {:induction false} UndisturbedReleases(env: seq<Interference>, r: nat)
    requires Undisturbed(env)
    ensures Released(env, r) == 0 && Came(env, r, true) == 0
  {
    if r == 0 {
    } else {
      UndisturbedReleases(env, r - 1);
    }
  }

  /** The granted waiters whose handles the runtime gets: all but the caller's own. */
  function ToWake(granted: seq<Waiter>, self: Waiter?): (r: seq<Waiter>)
    ensures |r| <= |granted|
  {
    if granted == [] then []
    else
      var last := |granted| - 1;
      ToWake(granted[..last], self) + if granted[last] == self then [] else [granted[last]]
  }

  /** All but the caller's own, in order. */
  lemma {:induction false} ToWakeIs(granted: seq<Waiter>, self: Waiter?)
    ensures forall w :: w in ToWake(granted, self) <==> w in granted && w != self
    ensures self !in granted ==> ToWake(granted, self) == granted
  {
    if granted == [] {
    } else {
      var last := |granted| - 1;
      ToWakeIs(granted[..last], self);
      assert granted == granted[..last] + [granted[last]];
    }
  }

  lemma Suffix(q: seq<Waiter>, k: nat)
    requires k < |q|
    ensures q[k..][0] == q[k] && q[k..][1..] == q[k + 1..]
  {
  }

  /** The order in which the runtime gets the handles: those past the buffer first,
      while the lock is still held. */
  function WakeOrder(w: seq<Waiter>): seq<Waiter> {
    w[Min(|w|, WAKE_SLOTS)..] + w[..Min(|w|, WAKE_SLOTS)]
  }

  lemma WakeOrderKeepsAll(w: seq<Waiter>)
    ensures multiset(WakeOrder(w)) == multiset(w)
  {
    var m := Min(|w|, WAKE_SLOTS);
    assert w == w[..m] + w[m..];
  }

  lemma LateFirst(before: seq<Waiter>, w: seq<Waiter>, n: nat)
    requires n == Min(|w|, WAKE_SLOTS)
    ensures before + w[n..] + w[..n] == before + WakeOrder(w)
  {
    assert before + w[n..] + w[..n] == before + (w[n..] + w[..n]);
  }

  /** Up to sixteen go in the order in which they were granted; of more, those after the
      sixteenth go first. */
  lemma WakeOrderIs(w: seq<Waiter>)
    ensures |w| <= 16 ==> WakeOrder(w) == w
    ensures |w| > 16 ==> WakeOrder(w) == w[16..] + w[..16]
  {
  }

  function Min(a: nat, b: nat): nat {
    if a < b then a else b
  }

  /** The permits the first k waiters ask for. */
  function Asked(q: seq<Waiter>, k: nat): nat
    requires k <= |q|
  {
    if k == 0 then 0 else Asked(q, k - 1) + q[k - 1].need
  }

  lemma {:induction false} AskedIsSum(q: seq<Waiter>, k: nat)
    requires k <= |q|
    ensures Sum(Needs(q)[..k]) == Asked(q, k)
  {
    if k == 0 {
    } else {
      AskedIsSum(q, k - 1);
      assert Needs(q)[..k] == Needs(q)[..k - 1] + [q[k - 1].need];
      SumAppend(Needs(q)[..k - 1], q[k - 1].need);
    }
  }

  /** A pass that stopped because the next waiter asks too much granted the longest prefix. */
  lemma StoppedAtLongest(q: seq<Waiter>, k: nat, permits: nat)
    requires k <= |q| && Asked(q, k) <= permits
    requires k == |q| || permits < Asked(q, k + 1)
    ensures k == GrantCount(Needs(q), permits)
  {
    AskedIsSum(q, k);
    GrantCountIsLongest(Needs(q), permits, k);
    if k < |q| {
      AskedIsSum(q, k + 1);
      GrantCountIsLongest(Needs(q), permits, k + 1);
    }
  }

  /** In each of the first r rounds of a pass over q that began with p permits there was a
      head, and it fitted. */
  ghost predicate Rounds(q: seq<Waiter>, p: int, env: seq<Interference>, r: nat) {
    forall j :: 0 <= j < r ==> Goes(q, p, env, j)
  }

  ghost predicate Goes(q: seq<Waiter>, p: int, env: seq<Interference>, j: nat) {
    var k := Swaps(env, j);
    k < |q| && q[k].need <= p + Came(env, j, true) - Asked(q, k)
  }

  class Semaphore {
    var permits: int
    var hasWaiters: bool
    var head: Waiter?
    var tail: Waiter?
    /** The handles passed to runtime_schedule, in order. */
    var scheduled: seq<Waiter>
    ghost var Queue: seq<Waiter>
    /** Every waiter linked so far: what the operations below may write to. */
    ghost var Nodes: set<Waiter>

    /** head and tail are the ends of the queue. */
    ghost predicate Ends()
      reads `Queue, `head, `tail
    {
      && head == (if Queue == [] then null else Queue[0])
      && tail == (if Queue == [] then null else Queue[|Queue| - 1])
    }

    ghost predicate Valid()
      reads `Queue, `head, `tail, `hasWaiters, `permits, Queue
    {
      && Ends() && Links(Queue)
      && permits >= 0
      && (hasWaiters <==> Queue != [])
      && (forall i :: 0 <= i < |Queue| ==> !Queue[i].acquired && !Queue[i].cancelled)
    }

    ghost predicate Owned()
      reads `Queue, `Nodes
    {
      forall w :: w in Queue ==> w in Nodes
    }

    ghost function Abs(): Core<Waiter>
      reads this
    {
      Core(permits, hasWaiters, Queue)
    }

    constructor (initial: nat)
      ensures Valid() && Owned() && Abs() == Core(initial, false, []) && scheduled == []
    {
      permits, hasWaiters, head, tail, scheduled, Queue, Nodes := initial, false, null, null, [], [], {};
    }

    method LinkTail(w: Waiter)
      requires Valid() && w !in Queue && !w.acquired && !w.cancelled
      modifies this`head, this`tail, this`hasWaiters, this`Queue, this`Nodes, w`prev, w`next, Queue`next
      ensures Valid() && (old(Owned()) ==> Owned())
      ensures Abs() == SemaphoreCore.LinkTail(old(Abs()), w) && Nodes == old(Nodes) + {w}
    {
      w.next := null;
      w.prev := tail;
      if tail != null {
        tail.next := w;
      } else {
        head := w;
      }
      tail := w;
      hasWaiters := true;
      Queue, Nodes := Queue + [w], Nodes + {w};
    }

    /** Takes a node out; k is its place. On a node that is in no list, with both links
        null, the same statements lose every queued waiter. */
    method Unlink(w: Waiter, ghost k: nat)
      requires Ends() && Links(Queue) && (hasWaiters <==> Queue != [])
      requires if k < |Queue| then Queue[k] == w else w !in Queue && w.prev == null && w.next == null
      modifies this`head, this`tail, this`hasWaiters, this`Queue, w`prev, w`next, Queue`prev, Queue`next
      ensures Ends() && Links(Queue) && (hasWaiters <==> Queue != [])
      ensures Queue == if k < |old(Queue)| then Without(old(Queue), k) else []
      ensures w.prev == null && w.next == null
    {
      ghost var q := Queue;
      if w.prev != null {
        w.prev.next := w.next;
      } else {
        head := w.next;
      }
      if w.next != null {
        w.next.prev := w.prev;
      } else {
        tail := w.prev;
      }
      w.prev, w.next := null, null;
      if head == null {
        hasWaiters := false;
      }
      if k < |q| {
        BypassedLinks(q, k);
        Queue := Without(q, k);
      } else {
        Queue := [];
      }
    }

    /** The part of out that is filled and the direct schedules, for granted so far. */
    ghost predicate Collected(out: array<Waiter?>, n: nat, before: seq<Waiter>, granted: seq<Waiter>, self: Waiter?)
      reads this, out
    {
      var w := ToWake(granted, self);
      && out.Length == WAKE_SLOTS && n == Min(|w|, WAKE_SLOTS)
      && (forall i :: 0 <= i < n ==> out[i] == w[i])
      && scheduled == before + w[n..]
    }

    /** Where a granted waiter's handle goes: nowhere if it is the caller's own, else to
        the buffer, or to the runtime at once when the buffer is full. */
    method Deliver(out: array<Waiter?>, n: nat, w: Waiter, self: Waiter?, ghost before: seq<Waiter>,
        ghost q: seq<Waiter>, ghost k: nat)
      returns (m: nat)
      requires k < |q| && q[k] == w && Collected(out, n, before, q[..k], self)
      modifies this`scheduled, out
      ensures Collected(out, m, before, q[..k + 1], self)
    {
      assert q[..k + 1][..k] == q[..k];
      m := n;
      if w == self {
      } else if n < WAKE_SLOTS {
        out[n] := w;
        m := n + 1;
      } else {
        scheduled := scheduled + [w];
      }
    }

    /** Takes the head off the list and marks it. */
    method PopHead() returns (w: Waiter)
      requires Valid() && Queue != []
      modifies this`head, this`tail, this`hasWaiters, this`Queue, Queue
      ensures Valid() && w == old(Queue)[0] && Queue == old(Queue)[1..]
      ensures w.acquired && !w.cancelled
    {
      w := head;
      ghost var q := Queue;
      Unlink(w, 0);
      HeadOff(q);
      forall i | 0 <= i < |Queue|
        ensures Queue[i] != w && !Queue[i].acquired && !Queue[i].cancelled
      {
        assert Queue[i] == q[i + 1] && Queue[i] in Queue;
      }
      w.acquired := true;
    }

    /** The head is taken off, marked, and delivered. */
    method GrantHead(out: array<Waiter?>, n: nat, self: Waiter?, ghost before: seq<Waiter>, ghost q: seq<Waiter>,
        ghost k: nat)
      returns (m: nat)
      requires Valid() && k < |q| && Queue == q[k..] && Collected(out, n, before, q[..k], self)
      modifies this`head, this`tail, this`hasWaiters, this`Queue, this`scheduled, Queue, out
      ensures Valid() && Queue == q[k + 1..] && Collected(out, m, before, q[..k + 1], self)
      ensures q[k].acquired && !q[k].cancelled
    {
      var w := PopHead();
      Suffix(q, k);
      m := Deliver(out, n, w, self, before, q, k);
    }

    /** One round of the loop: the head is granted (j == k + 1), or another thread
        interfered, or the free permits do not suffice (done). q is the queue at the start
        of the pass and k the number granted so far. */
    method GrantRound(out: array<Waiter?>, n: nat, self: Waiter?, round: Interference, ghost before: seq<Waiter>,
        ghost q: seq<Waiter>, ghost k: nat)
      returns (m: nat, done: bool, ghost j: nat)
      requires Valid() && k < |q| && Queue == q[k..] && Collected(out, n, before, q[..k], self)
      modifies this, Queue, out
      ensures Valid() && k <= j <= |q| && Queue == q[j..] && Collected(out, m, before, q[..j], self)
      ensures Nodes == old(Nodes)
      ensures j == if !done && round.beforeSwap == 0 && !round.spurious then k + 1 else k
      ensures done <==> old(permits) + round.beforeLoad < q[k].need
      ensures j == k + 1 ==> q[k].acquired && !q[k].cancelled
      ensures permits == old(permits) + round.beforeLoad + (if done then 0 else round.beforeSwap)
                         - if j == k then 0 else q[k].need
    {
      j, m, done := k, n, false;
      permits := permits + round.beforeLoad;
      var cur := permits;
      if cur < head.need {
        done := true;
        return;
      }
      permits := permits + round.beforeSwap;
      if permits != cur || round.spurious {
        return;
      }
      permits := cur - head.need;
      m := GrantHead(out, n, self, before, q, k);
      j := k + 1;
    }

    /** A pass over queue q that began with p permits has gone r rounds, and granted the first
        k waiters: one in each round whose exchange succeeded. */
    ghost predicate Taking(q: seq<Waiter>, p: int, env: seq<Interference>, r: nat, k: nat, stopped: bool)
      reads `Queue, `permits, q
    {
      && k <= |q| && Queue == q[k..] && k == Swaps(env, r) && Rounds(q, p, env, r)
      && permits == p + Came(env, r, stopped) - Asked(q, k)
      && (forall i :: 0 <= i < k ==> q[i].acquired && !q[i].cancelled)
    }

    /** It has ended so: the head, if any, does not fit. */
    ghost predicate Took(q: seq<Waiter>, p: int, env: seq<Interference>, r: nat, k: nat)
      reads `Queue, `permits, q
    {
      Taking(q, p, env, r, k, Queue != []) && (Queue == [] || permits < Queue[0].need)
    }

    lemma TookUndisturbed(q: seq<Waiter>, p: int, env: seq<Interference>, r: nat, k: nat)
      requires Undisturbed(env) && Took(q, p, env, r, k) && permits >= 0
      ensures k == GrantCount(Needs(q), p) && permits == p - Asked(q, k)
    {
      UndisturbedReleases(env, r);
      StoppedAtLongest(q, k, p);
    }

    /** The next round of such a pass: where it leaves the pass. */
    method PassRound(out: array<Waiter?>, n: nat, self: Waiter?, round: Interference, ghost before: seq<Waiter>,
        ghost q: seq<Waiter>, ghost p: int, ghost env: seq<Interference>, ghost r: nat, ghost k: nat)
      returns (m: nat, done: bool, ghost j: nat)
      requires Valid() && Taking(q, p, env, r, k, false) && Queue != [] && round == Round(env, r)
      requires Collected(out, n, before, q[..k], self)
      modifies this, Queue, out
      ensures Valid() && Nodes == old(Nodes)
      ensures Taking(q, p, env, if done then r else r + 1, j, done) && Collected(out, m, before, q[..j], self)
      ensures if done then j == k && permits < q[k].need else j == k + 1 || (j == k && round != QUIET)
    {
      m, done, j := GrantRound(out, n, self, round, before, q, k);
      assert done || Goes(q, p, env, r);
    }

    /** grant_locked, with the interference of other threads spelled out in env: the first
        k waiters are granted. */
    method GrantLocked(out: array<Waiter?>, self: Waiter?, env: seq<Interference>)
      returns (n: nat, ghost k: nat, ghost r: nat)
      requires Valid() && Owned() && out.Length == WAKE_SLOTS
      modifies this, Nodes, out
      ensures Valid() && Owned() && Nodes == old(Nodes)
      ensures Took(old(Queue), old(permits), env, r, k)
      ensures Undisturbed(env) ==> k == GrantCount(Needs(old(Queue)), old(permits))
      ensures Collected(out, n, old(scheduled), old(Queue)[..k], self)
    {
      n, k, r := 0, 0, 0;
      var i, done := 0, false;
      ghost var q, before := Queue, scheduled;
      while head != null && !done
        invariant Valid() && Nodes == old(Nodes) && i <= |env|
        invariant Taking(q, old(permits), env, r, k, done) && (done || i == r || r > i == |env|)
        invariant Collected(out, n, before, q[..k], self)
        invariant done ==> k < |q| && permits < q[k].need
        decreases !done, |q| - k + |env| - i
      {
        var round := Round(env, i);
        assert round == Round(env, r);
        n, done, k := PassRound(out, n, self, round, before, q, old(permits), env, r, k);
        r := if done then r else r + 1;
        i := if i < |env| then i + 1 else i;
      }
      if Undisturbed(env) {
        TookUndisturbed(q, old(permits), env, r, k);
      }
    }

    method NewBuffer() returns (out: array<Waiter?>)
      ensures fresh(out) && out.Length == WAKE_SLOTS
    {
      out := new Waiter?[WAKE_SLOTS](_ => null);
    }

    /** The loop after the lock is given back. */
    method WakeBuffered(out: array<Waiter?>, n: nat, ghost before: seq<Waiter>, ghost granted: seq<Waiter>,
        ghost self: Waiter?)
      requires Collected(out, n, before, granted, self)
      modifies this`scheduled
      ensures scheduled == before + WakeOrder(ToWake(granted, self))
    {
      ghost var w, late := ToWake(granted, self), scheduled;
      for i := 0 to n
        invariant scheduled == late + w[..i]
      {
        var h := out[i];
        if h != null {
          assert w[..i + 1] == w[..i] + [w[i]];
          scheduled := scheduled + [h];
        }
      }
      LateFirst(before, w, n);
    }

    /** Lock, grant_locked, unlock, wake: what release, dequeue_or_return and enqueuing
        have in common. */
    method GrantAndWake(self: Waiter?, env: seq<Interference>) returns (ghost k: nat, ghost r: nat)
      requires Valid() && Owned()
      modifies this, Nodes
      ensures Valid() && Owned() && Nodes == old(Nodes)
      ensures Took(old(Queue), old(permits), env, r, k)
      ensures scheduled == old(scheduled) + WakeOrder(ToWake(old(Queue)[..k], self))
      ensures Undisturbed(env) ==> k == GrantCount(Needs(old(Queue)), old(permits))
    {
      var out := NewBuffer();
      var n;
      n, k, r := GrantLocked(out, self, env);
      WakeBuffered(out, n, old(scheduled), old(Queue)[..k], self);
    }

    // ----- the operations -----

    /** The fast path: no permits are taken from under a waiter's nose. Nobody takes permits
        meanwhile, so it fails only at the first look; and it takes n as soon as a round is
        quiet, the r-th, together with nothing that came in before. */
    method TryAcquire(n: nat, env: seq<Interference>) returns (ok: bool, ghost r: nat)
      requires Valid()
      modifies this`permits
      ensures Valid()
      ensures ok <==> n == 0 || (Queue == [] && n <= old(permits))
      ensures permits == old(permits) + Released(env, r) - if ok then n else 0
      ensures if ok && n > 0 then r > 0 && Round(env, r - 1) == QUIET && forall j :: 0 <= j < r - 1 ==> Round(env, j) != QUIET
              else r == 0
    {
      ok, r := n == 0, 0;
      if n == 0 || head != null {
        return;
      }
      var i, cur := 0, permits;
      while cur >= n && !ok
        invariant permits >= 0 && i <= |env| && (if i < |env| then i == r else r >= i)
        invariant permits == old(permits) + Released(env, r) - if ok then n else 0
        invariant if ok then r > 0 && Round(env, r - 1) == QUIET && forall j :: 0 <= j < r - 1 ==> Round(env, j) != QUIET
                  else cur == permits && forall j :: 0 <= j < r ==> Round(env, j) != QUIET
        invariant cur < n ==> r == 0
        invariant r > 0 ==> n <= old(permits)
        decreases !ok, |env| - i
      {
        var round := Round(env, i);
        assert round == Round(env, r);
        permits := permits + round.beforeLoad + round.beforeSwap;
        if permits == cur && !round.spurious {
          permits, ok := cur - n, true;
        } else {
          cur := permits;
        }
        r := r + 1;
        i := if i < |env| then i + 1 else i;
      }
    }

    /** Queues w at the tail and grants from the head; true if w itself was granted. */
    method TryAcquireOrEnqueue(w: Waiter, env: seq<Interference>) returns (acquired: bool, ghost k: nat, ghost r: nat)
      requires Valid() && Owned() && w !in Queue && !w.acquired && !w.cancelled
      modifies this, Nodes, w
      ensures Valid() && Owned() && Nodes == old(Nodes) + {w}
      ensures Took(old(Queue) + [w], old(permits), env, r, k)
      ensures scheduled == old(scheduled) + WakeOrder(ToWake((old(Queue) + [w])[..k], w))
      ensures acquired <==> k == |old(Queue)| + 1
      ensures Undisturbed(env) ==> k == GrantCount(Needs(old(Queue) + [w]), old(permits))
    {
      LinkTail(w);
      ghost var q := Queue;
      k, r := GrantAndWake(w, env);
      assert q[|q| - 1] == w && (k < |q| ==> Queue[|Queue| - 1] == w);
      acquired := w.acquired;
    }

    /** Linked in the queue, or in no list with both links null. */
    ghost predicate Known(w: Waiter)
      reads `Queue, w
    {
      w in Queue || (w.prev == null && w.next == null)
    }

    /** A waiter leaves the queue ungranted, if it is in it. */
    method Leave(w: Waiter)
      requires Valid() && Owned() && Known(w)
      modifies this`head, this`tail, this`hasWaiters, this`Queue, w`prev, w`next, Queue`prev, Queue`next
      ensures Valid() && Owned() && Abs() == Remove(old(Abs()), w)
      ensures w !in Queue
    {
      ghost var q, k := Queue, if w in Queue then IndexOf(Queue, w) else |Queue|;
      Unlink(w, k);
      if k < |q| {
        RestStays(q, k);
      }
    }

    /** A scope's callback. It checks the marks only, not that the waiter is linked. */
    method TryCancelWaiter(w: Waiter) returns (won: bool)
      requires Valid() && Owned() && Known(w)
      modifies this`head, this`tail, this`hasWaiters, this`Queue, w, Queue`prev, Queue`next
      ensures Valid() && Owned()
      ensures won <==> !old(w.acquired) && !old(w.cancelled)
      ensures won ==> w.cancelled && !w.acquired && Abs() == Remove(old(Abs()), w)
      ensures !won ==> Abs() == old(Abs()) && w.acquired == old(w.acquired) && w.cancelled == old(w.cancelled)
    {
      if w.acquired || w.cancelled {
        return false;
      }
      Leave(w);
      w.cancelled := true;
      return true;
    }

    /** Without waiters, or without permits, nobody is granted; else the pass begins with the
        permits added. */
    method Release(n: nat, env: seq<Interference>) returns (ghost k: nat, ghost r: nat)
      requires Valid() && Owned()
      modifies this, Nodes
      ensures Valid() && Owned() && Nodes == old(Nodes)
      ensures n == 0 || old(Queue) == [] ==>
        k == 0 && Queue == old(Queue) && permits == old(permits) + n && scheduled == old(scheduled)
      ensures n > 0 && old(Queue) != [] ==>
        && Took(old(Queue), old(permits) + n, env, r, k)
        && scheduled == old(scheduled) + WakeOrder(ToWake(old(Queue)[..k], null))
        && (Undisturbed(env) ==> k == GrantCount(Needs(old(Queue)), old(permits) + n))
    {
      k, r := 0, 0;
      if n == 0 {
        return;
      }
      permits := permits + n;
      if !hasWaiters {
        return;
      }
      k, r := GrantAndWake(null, env);
    }

    /** The destructor of an awaiter that is still enqueued: a no-op after cancellation,
        leaving the queue while waiting, returning the permits after a grant. */
    method DequeueOrReturn(w: Waiter, env: seq<Interference>) returns (ghost k: nat, ghost r: nat)
      requires Valid() && Owned() && Known(w)
      modifies this, Nodes, w
      ensures Valid() && Owned()
      ensures old(w.cancelled) ==> unchanged(this) && unchanged(w)
      ensures !old(w.cancelled) && !old(w.acquired) ==>
        Abs() == Remove(old(Abs()), w) && scheduled == old(scheduled) && !w.acquired && !w.cancelled
      ensures old(w.acquired) && !old(w.cancelled) ==>
        && Took(old(Queue), old(permits) + w.need, env, r, k)
        && scheduled == old(scheduled) + WakeOrder(ToWake(old(Queue)[..k], null))
        && (Undisturbed(env) ==> k == GrantCount(Needs(old(Queue)), old(permits) + w.need))
    {
      k, r := 0, 0;
      if w.cancelled {
        return;
      }
      if !w.acquired {
        Leave(w);
      } else {
        permits := permits + w.need;
        k, r := GrantAndWake(null, env);
      }
    }
  }
}
