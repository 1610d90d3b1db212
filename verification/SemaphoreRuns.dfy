/** Runs from an initial state into each of the windows that SemaphoreOrder speaks of. */
module SemaphoreRuns {
  import opened Options
  import opened SemaphoreCalls
  import opened SemaphoreCore
  import opened SemaphoreOrder
  import opened SemaphoreProtocol
  import opened SemaphoreSafety
  import opened SemaphoreWakes
  import opened SemaphoreWindows
  import opened Sums

  /** A run after which a waiter that is not linked yet is cancelled: the waiter in the queue
      is lost. */
  lemma BeforeLinking() returns (s: State, steps: seq<Step>)
    ensures Init(s) && Legal(s, steps) && Enabled(Exec(s, steps), LockToCancel(0, 1))
    ensures var e := Exec(s, steps);
      At(e, 1) == FreshWaiter(1) && e.core.queue == [0] && Cancel(e, 0, 1).core.queue == []
  {
    s := Opening();
    var e := Parked(TwoWaiters(), 0);
    assert e.core.queue == [0];
    steps := EnqueueBehind(TwoWaiters(), 0, []);
    steps := FromOpening(steps);
    CancelIs(e, 0, 1);
  }

  /** Waiter 1 after its destructor took it out of the queue. */
  function SecondLeft(): State {
    var q := BothParked();
    SetWaiter(q.(core := Remove(q.core, 1)), 1, At(q, 1).(dropped := true, linked := false))
  }

  lemma SecondLeaves() returns (steps: seq<Step>)
    ensures Legal(BothParked(), steps) && Exec(BothParked(), steps) == SecondLeft()
  {
    var q, e := BothParked(), SecondLeft();
    assert q.core.queue == [0, 1];
    var s1 := Apply(q, LockToDrop(0, 1));
    var s2 := SetPc(e.(lock := Some(0)), 0, Unlocking(None, []));
    assert Tick(s1) == s2;
    Unlocks(e.(lock := Some(0)), 0, []);
    assert e.threads == [Idle];
    steps := RestThen(s2, 0, []);
    steps := Before(s1, TICK, steps);
    steps := Before(q, LockToDrop(0, 1), steps);
  }

  /** Both ways in which the await_suspend of a waiter cancelled before it is linked ends, in
      runs from an initial state with one permit: a waiter for one permit is granted and
      carries on; any other carries on as cancelled, and its node stays queued. Its handle
      went to the runtime either way. */
  lemma BeforeLinkingEnds(n: nat) returns (s: State, steps: seq<Step>, after: seq<Step>)
    requires n > 0
    ensures Init(s) && Legal(s, steps) && Enabled(Exec(s, steps), LockToCancel(0, 0))
    ensures At(Exec(s, steps), 0) == FreshWaiter(n) && Exec(s, steps).core.permits == 1
    ensures Legal(Cancel(Exec(s, steps), 0, 0), after)
    ensures var f := Exec(Cancel(Exec(s, steps), 0, 0), after); var x := At(f, 0);
      && f.threads == [Idle, Idle] && x.wakes == 1
      && if n == 1 then x.inline && f.core == Core(0, false, []) else x.rushed && f.core == Core(1, true, [0])
  {
    s := Opening();
    steps := TwoThreads(n, []);
    after := CancelBeforeLinking(s, steps, 0, 1, 0);
  }

  /** A run after which a waiter whose awaiter is being destroyed has left the queue, but its
      guard is not disarmed yet, and is cancelled: with the same loss. */
  lemma AfterLeaving() returns (s: State, steps: seq<Step>)
    ensures Init(s) && Legal(s, steps) && Enabled(Exec(s, steps), LockToCancel(0, 1))
    ensures var e := Exec(s, steps);
      At(e, 1).dropped && e.core.queue == [0] && Cancel(e, 0, 1).core.queue == []
  {
    s := Opening();
    assert BothParked().core.queue == [0, 1];
    assert SecondLeft().core.queue == [0];
    steps := SecondLeaves();
    steps := ParkBoth(steps);
    CancelIs(SecondLeft(), 0, 1);
  }

  /** A run after which a waiter is linked and its await_suspend has not ended: cancelled by
      the second thread, its coroutine is resumed twice. */
  lemma DuringSuspend() returns (s: State, steps: seq<Step>)
    ensures Init(s) && Legal(s, steps) && Enabled(Exec(s, steps), LockToCancel(1, 0))
    ensures Doubled(Exec(s, steps), 1, 0)
  {
    s := Opening();
    steps := HalfSuspends([]);
    DoubleResumption(s, steps, 1, 0);
  }

  /** Thread 0 has queued waiter 0, which asks for two permits, and unlocked. */
  function ParkedHalf(): State {
    var s := TwoIdle(2);
    s.(core := Core(1, true, [0]), tickets := 1, threads := [Waking(Some(0), []), Idle],
       waiters := [FreshWaiter(2).(entered := true, linked := true)])
  }

  lemma HalfSuspends(rest: seq<Step>) returns (steps: seq<Step>)
    requires Legal(ParkedHalf(), rest)
    ensures Legal(Opening(), steps) && Exec(Opening(), steps) == Exec(ParkedHalf(), rest)
  {
    var s3 := TwoIdle(2);
    var s4 := Apply(s3, LockToEnqueue(0, 0));
    var s5 := Tick(s4);
    assert s5.threads == [GrantLoad(Some(0), []), Idle] && s5.core.queue == [0];
    var s6 := Tick(s5);
    assert s6.threads == [Unlocking(Some(0), []), Idle];
    assert Tick(s6) == ParkedHalf();
    steps := Before(s6, TICK, rest);
    steps := Before(s5, TICK, steps);
    steps := Before(s4, TICK, steps);
    steps := Before(s3, LockToEnqueue(0, 0), steps);
    steps := TwoThreads(2, steps);
  }

  function TwoIdle(n: nat): State {
    Opening().(threads := [Idle, Idle], waiters := [FreshWaiter(n)])
  }

  lemma TwoThreads(n: nat, rest: seq<Step>) returns (steps: seq<Step>)
    requires n > 0 && Legal(TwoIdle(n), rest)
    ensures Legal(Opening(), steps) && Exec(Opening(), steps) == Exec(TwoIdle(n), rest)
  {
    var s1 := Apply(Opening(), NewThread);
    var s2 := Apply(s1, NewThread);
    assert Apply(s2, NewWaiter(n)) == TwoIdle(n);
    steps := Before(s2, NewWaiter(n), rest);
    steps := Before(s1, NewThread, steps);
    steps := Before(Opening(), NewThread, steps);
  }

  // ----- handed over while await_suspend still runs -----

  /** In every reachable state, a thread that is about to give w's handle to the runtime does
      so while another thread still runs w's await_suspend, which will read the node again,
      if and only if w is not suspended yet. */
  lemma HandedOverEarly(s: State, steps: seq<Step>, t: nat, w: nat)
    requires Init(s) && Legal(s, steps)
    requires var e := Exec(s, steps); t < |e.threads| && w in Buffer(e.threads[t])
    ensures var e := Exec(s, steps);
      w < |e.waiters| && ((exists v: nat :: Inside(e, v, w)) <==> !e.waiters[w].suspended)
  {
    Reached(s, steps, w);
    EarlyIff(Exec(s, steps), t, w);
  }

  lemma EarlyIff(e: State, t: nat, w: nat)
    requires Basic(e) && AllWokenOnce(e) && Attended(e, w) && t < |e.threads| && w in Buffer(e.threads[t])
    ensures w < |e.waiters| && ((exists v: nat :: Inside(e, v, w)) <==> !e.waiters[w].suspended)
  {
    assert PcOk(e, e.threads[t]) && PcInRange(e.threads[t], |e.waiters|);
    assert WaiterOk(e.waiters[w]) && WokenOnce(e, w);
    SumNonNegative(Occurrences(e.threads, w));
    SumOne(Occurrences(e.threads, w), t);
    if v: nat :| Inside(e, v, w) {
      assert PcOk(e, e.threads[v]);
    }
  }

  /** Such a run: a release grants the waiter of thread 0, and hands it over, before thread 0
      has reached the end of await_suspend. */
  lemma HandedOverEarlyRun() returns (s: State, steps: seq<Step>)
    ensures Init(s) && Legal(s, steps)
    ensures var e := Exec(s, steps); At(e, 0).wakes == 1 && !At(e, 0).suspended && Inside(e, 0, 0)
  {
    s := Opening();
    var p := ParkedHalf();
    steps := ReleaseToOnly(p, 1, 1, 0);
    steps := HalfSuspends(steps);
  }
}
