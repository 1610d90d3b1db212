/** Permit objects, and the mutex built on a semaphore of one. A permit's destructor and
    assignment give back what it holds; moving empties the source. */
module PermitState {
  import opened SemaphoreCore
  import opened SemaphoreState

  /** A semaphore with queue q, p permits free and the handles in before scheduled got n
      permits back. Without waiters nobody is granted; else a pass of r rounds grants the
      first k, marks them, hands each over once, and leaves no head that fits. */
  ghost predicate GaveBack(sem: Semaphore, q: seq<Waiter>, p: int, before: seq<Waiter>, n: nat,
      env: seq<Interference>, r: nat, k: nat)
    reads sem, q
  {
    if n == 0 || q == [] then sem.Queue == q && sem.permits == p + n && sem.scheduled == before && k == 0
    else
      && sem.Took(q, p + n, env, r, k)
      && sem.scheduled == before + WakeOrder(ToWake(q[..k], null))
      && (Undisturbed(env) ==> k == GrantCount(Needs(q), p + n))
  }

  class Permit {
    var sem: Semaphore?
    var count: nat

    constructor (s: Semaphore?, n: nat)
      ensures sem == s && count == n
    {
      sem, count := s, n;
    }

    constructor Move(o: Permit)
      modifies o
      ensures sem == old(o.sem) && count == old(o.count) && o.sem == null && o.count == 0
    {
      sem, count := o.sem, o.count;
      new;
      o.sem, o.count := null, 0;
    }

    /** release_if_held: the destructor. */
    method Drop(env: seq<Interference>) returns (ghost k: nat, ghost r: nat)
      requires sem != null ==> sem.Valid() && sem.Owned()
      modifies sem
      modifies if sem != null then sem.Nodes else {}
      ensures sem != null ==>
        && sem.Valid() && sem.Owned() && sem.Nodes == old(sem.Nodes)
        && GaveBack(sem, old(sem.Queue), old(sem.permits), old(sem.scheduled), count, env, r, k)
    {
      k, r := 0, 0;
      if sem != null && count > 0 {
        k, r := sem.Release(count, env);
      }
    }

    /** Move assignment: what this permit held goes back first, even to the same
        semaphore; self-assignment does nothing. */
    method Assign(o: Permit, env: seq<Interference>) returns (ghost k: nat, ghost r: nat)
      requires sem != null ==> sem.Valid() && sem.Owned()
      modifies this, o, sem
      modifies if sem != null then sem.Nodes else {}
      ensures sem == old(o.sem) && count == old(o.count)
      ensures this != o ==> o.sem == null && o.count == 0
      ensures this == o ==> (sem != null ==> unchanged(sem))
      ensures old(sem) != null && this != o ==>
        && old(sem).Valid() && old(sem).Owned()
        && GaveBack(old(sem), old(sem.Queue), old(sem.permits), old(sem.scheduled), old(count), env, r, k)
    {
      k, r := 0, 0;
      if this != o {
        k, r := Drop(env);
        TakeOver(o);
      }
    }

    method TakeOver(o: Permit)
      requires this != o
      modifies this, o
      ensures sem == old(o.sem) && count == old(o.count) && o.sem == null && o.count == 0
    {
      sem, count := o.sem, o.count;
      o.sem, o.count := null, 0;
    }

    method Forget()
      modifies `count
      ensures count == 0
    {
      count := 0;
    }

    /** Of two permits of one semaphore; merging a permit into itself changes nothing. */
    method Merge(other: Permit)
      requires sem == other.sem
      modifies `count, other`count
      ensures count == if this == other then old(count) else old(count) + old(other.count)
      ensures this != other ==> other.count == 0
    {
      var taken := other.count;
      other.count := 0;
      count := count + taken;
    }
  }

  class Mutex {
    const sem: Semaphore

    constructor ()
      ensures fresh(sem) && sem.Valid() && sem.Owned() && sem.Abs() == Core(1, false, [])
    {
      sem := new Semaphore(1);
    }

    /** The guard, if nobody holds the mutex and nobody waits for it; r rounds were needed. */
    method TryLock(env: seq<Interference>) returns (guard: Permit?, ghost r: nat)
      requires sem.Valid()
      modifies sem`permits
      ensures sem.Valid() && sem.permits == old(sem.permits) + Released(env, r) - if guard == null then 0 else 1
      ensures guard != null <==> sem.Queue == [] && old(sem.permits) >= 1
      ensures guard != null ==> fresh(guard) && guard.sem == sem && guard.count == 1 && r > 0 && Round(env, r - 1) == QUIET
      ensures guard == null ==> r == 0
    {
      var ok;
      ok, r := sem.TryAcquire(1, env);
      guard := null;
      if ok {
        guard := new Permit(sem, 1);
      }
    }

    /** The guard's destructor, while it holds the mutex and no one else releases: the
        mutex goes to the waiter that has waited longest, which is handed over and nobody
        else, or is free again if nobody waits. */
    method Unlock(guard: Permit, env: seq<Interference>)
      requires sem.Valid() && sem.Owned() && sem.permits == 0 && Undisturbed(env)
      requires guard.sem == sem && guard.count == 1
      requires forall i :: 0 <= i < |sem.Queue| ==> sem.Queue[i].need == 1
      modifies sem, sem.Nodes
      ensures sem.Valid() && sem.Owned()
      ensures old(sem.Queue) == [] ==> sem.permits == 1 && sem.Queue == [] && sem.scheduled == old(sem.scheduled)
      ensures old(sem.Queue) != [] ==>
        && sem.permits == 0 && sem.Queue == old(sem.Queue)[1..] && old(sem.Queue)[0].acquired
        && sem.scheduled == old(sem.scheduled) + [old(sem.Queue)[0]]
    {
      ghost var q := sem.Queue;
      ghost var k, r := guard.Drop(env);
      if q != [] {
        HandsOver(sem, q, old(sem.scheduled), env, r, k);
      }
    }
  }

  lemma HandsOver(sem: Semaphore, q: seq<Waiter>, before: seq<Waiter>, env: seq<Interference>, r: nat, k: nat)
    requires q != [] && GaveBack(sem, q, 0, before, 1, env, r, k) && Undisturbed(env) && sem.permits >= 0
    requires forall i :: 0 <= i < |q| ==> q[i].need == 1
    ensures k == 1 && sem.Queue == q[1..] && sem.permits == 0 && q[0].acquired && sem.scheduled == before + [q[0]]
  {
    UnitGrants(Needs(q), 1);
    sem.TookUndisturbed(q, 1, env, r, k);
    assert Asked(q, 1) == Asked(q, 0) + q[0].need;
    assert q[..1] == [q[0]];
    WakeOrderIs([q[0]]);
    ToWakeIs([q[0]], null);
  }

  /** With requests of one permit each, a pass grants as many waiters as there are permits;
      so a guard dropped while the mutex has waiters hands it to the first of them. */
  lemma {:induction false} UnitGrants(needs: seq<nat>, permits: nat)
    requires forall i :: 0 <= i < |needs| ==> needs[i] == 1
    ensures GrantCount(needs, permits) == Min(|needs|, permits)
  {
    if needs == [] || permits == 0 {
    } else {
      UnitGrants(needs[1..], permits - 1);
    }
  }
}
