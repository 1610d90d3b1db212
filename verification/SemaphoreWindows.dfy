/** What the semaphore's code does outside the conditions under which it is correct. */
module SemaphoreWindows {
  import opened Options
  import opened Queues
  import opened SemaphoreCore
  import opened SemaphoreFairness
  import opened SemaphoreProtocol
  import opened SemaphoreSafety

  /** The run that takes step first and then the rest. */
  lemma Before(s: State, step: Step, rest: seq<Step>) returns (steps: seq<Step>)
    requires Enabled(s, step) && CancelInOrder(s, step) && Legal(Apply(s, step), rest)
    ensures steps == [step] + rest && Legal(s, steps) && Exec(s, steps) == Exec(Apply(s, step), rest)
  {
    steps := [step] + rest;
    assert steps[1..] == rest;
  }

  /** Thread 0 takes its next access. */
  function Tick(s: State): State {
    AdvanceApply(s, 0, true)
  }

  const TICK := Advance(0, true)

  // ----- a stranded waiter -----

  function Parked(s: State, w: nat): State {
    SetWaiter(s.(core := LinkTail(s.core, w), tickets := s.tickets + 1), w,
              At(s, w).(entered := true, linked := true, suspended := true, ticket := s.tickets))
  }

  /** A lone thread runs w's await_suspend behind a head that stays short of permits. */
  lemma EnqueueBehind(s: State, w: nat, rest: seq<Step>) returns (steps: seq<Step>)
    requires s.threads == [Idle] && s.lock == None && w < |s.waiters|
    requires s.waiters[w] == FreshWaiter(s.waiters[w].need)
    requires s.core.permits < At(s, (s.core.queue + [w])[0]).need
    requires Legal(Parked(s, w), rest)
    ensures Legal(s, steps) && Exec(s, steps) == Exec(Parked(s, w), rest)
  {
    var s1 := Apply(s, LockToEnqueue(0, w));
    var s2 := Tick(s1);
    assert s2.threads == [GrantLoad(Some(w), [])];
    var s3 := Tick(s2);
    assert s3.threads == [Unlocking(Some(w), [])];
    var s4 := Tick(s3);
    var s5 := Tick(s4);
    var s6 := Tick(s5);
    assert s6 == Parked(s, w);
    steps := Before(s5, TICK, rest);
    steps := Before(s4, TICK, steps);
    steps := Before(s3, TICK, steps);
    steps := Before(s2, TICK, steps);
    steps := Before(s1, TICK, steps);
    steps := Before(s, LockToEnqueue(0, w), steps);
  }

  /** With one permit free, waiters asking for two and then for one permit, and a
      cancellation of the first. */
  function Opening(): State {
    State(Core(1, false, []), None, [], [], [], 0, 0, 1, 0)
  }

  function TwoWaiters(): State {
    Opening().(threads := [Idle], waiters := [FreshWaiter(2), FreshWaiter(1)])
  }

  /** The waiting head w after the callback and its scheduling. */
  function HeadCancelled(s: State, w: nat): State
    requires s.core.queue != []
  {
    var x := At(s, w);
    SetWaiter(s.(core := Unlink(s.core, 0)), w, x.(linked := false, cancelled := true, wakes := x.wakes + 1))
  }

  lemma CancelHead(s: State, w: nat) returns (steps: seq<Step>)
    requires s.threads == [Idle] && s.lock == None && w < |s.waiters| && s.core.queue != [] && s.core.queue[0] == w
    requires var x := s.waiters[w]; x.linked && x.suspended && !x.acquired && !x.cancelled
    ensures Legal(s, steps) && Exec(s, steps) == HeadCancelled(s, w)
  {
    var x := s.waiters[w].(linked := false, cancelled := true);
    var s1 := Apply(s, LockToCancel(0, w));
    var s2 := s.(core := Unlink(s.core, 0), waiters := s.waiters[w := x], threads := [Unlocking(None, [w])],
        lock := Some(0));
    assert IndexOf(s.core.queue, w) == 0;
    assert Tick(s1) == s2;
    var s3 := s2.(threads := [Waking(None, [w])], lock := None);
    assert Tick(s2) == s3;
    var s4 := HeadCancelled(s, w).(threads := [Waking(None, [])]);
    assert s3.threads[0].buf[1..] == [];
    assert Tick(s3) == s4;
    assert Tick(s4) == HeadCancelled(s, w);
    steps := Before(s4, TICK, []);
    steps := Before(s3, TICK, steps);
    steps := Before(s2, TICK, steps);
    steps := Before(s1, TICK, steps);
    steps := Before(s, LockToCancel(0, w), steps);
  }

  lemma FromOpening(rest: seq<Step>) returns (steps: seq<Step>)
    requires Legal(TwoWaiters(), rest)
    ensures Init(Opening()) && Legal(Opening(), steps) && Exec(Opening(), steps) == Exec(TwoWaiters(), rest)
  {
    var s1 := Apply(Opening(), NewThread);
    var s2 := Apply(s1, NewWaiter(2));
    assert Apply(s2, NewWaiter(1)) == TwoWaiters();
    steps := Before(s2, NewWaiter(1), rest);
    steps := Before(s1, NewWaiter(2), steps);
    steps := Before(Opening(), NewThread, steps);
  }

  /** Both waiters queued, by thread 0. */
  function BothParked(): State {
    Parked(Parked(TwoWaiters(), 0), 1)
  }

  lemma ParkBoth(rest: seq<Step>) returns (steps: seq<Step>)
    requires Legal(BothParked(), rest)
    ensures Init(Opening()) && Legal(Opening(), steps) && Exec(Opening(), steps) == Exec(BothParked(), rest)
  {
    var p := Parked(TwoWaiters(), 0);
    assert p.core.queue == [0];
    steps := EnqueueBehind(p, 1, rest);
    steps := EnqueueBehind(TwoWaiters(), 0, steps);
    steps := FromOpening(steps);
  }

  lemma HeadLeaves(q: State)
    requires q.core.queue == [0, 1] && |q.waiters| == 2 && q.waiters[1].need == q.core.permits == 1
    ensures var e := HeadCancelled(q, 0);
      e.core.queue == [1] && e.core.permits == HeadNeed(e) == 1 && e.threads == q.threads && e.lock == q.lock
  {
    assert Without(q.core.queue, 0) == [1];
  }

  /** Removing an ungranted head does not run granting again: a run after which nobody is
      inside the semaphore, a permit is free, and the one waiter wants one permit. */
  lemma StrandedWaiter() returns (s: State, steps: seq<Step>)
    ensures Init(s) && Legal(s, steps)
    ensures var e := Exec(s, steps);
      Quiet(e) && e.threads == [Idle] && e.core.queue == [1] && HeadNeed(e) == 1 == e.core.permits
  {
    s := Opening();
    var q := BothParked();
    assert q.core.queue == [0, 1];
    steps := CancelHead(q, 0);
    HeadLeaves(q);
    steps := ParkBoth(steps);
  }

  // ----- cancellation out of order -----

  /** A callback that runs before its waiter is linked, or after its destructor unlinked
      it, takes everybody else out of the queue too, unless the queue is empty anyway. */
  lemma CancelKeepsOthers(s: State, t: nat, w: nat)
    requires Basic(s) && w < |s.waiters|
    ensures (forall v :: 0 <= v < |s.waiters| && v != w && v in s.core.queue ==> v in CancelApply(s, t, w).core.queue)
       <==> (s.waiters[w].linked || s.waiters[w].acquired || s.waiters[w].cancelled || s.core.queue == [])
  {
    if s.waiters[w].linked {
      WithoutMembers(s.core.queue, IndexOf(s.core.queue, w));
      assert WaiterOk(s.waiters[w]);
    } else if !s.waiters[w].acquired && !s.waiters[w].cancelled && s.core.queue != [] {
      assert s.core.queue[0] in s.core.queue;
    }
  }
}
