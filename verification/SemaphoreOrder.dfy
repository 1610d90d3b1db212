/** When a cancellation may reach a semaphore waiter: the order demanded of the runs is
    exactly what keeps everybody else queued and nobody resumed twice. */
module SemaphoreOrder {
  import opened Options
  import opened Queues
  import opened SemaphoreCalls
  import opened SemaphoreCore
  import opened SemaphoreProtocol
  import opened SemaphoreSafety
  import opened SemaphoreWakes
  import opened SemaphoreWindows
  import opened Sums

  // ----- the double resumption -----

  function Count(b: bool): nat {
    if b then 1 else 0
  }

  /** How often the coroutine of a waiter is resumed: by the runtime, and by its own thread
      because await_suspend returned false. */
  function Resumptions(x: Waiter): nat {
    x.wakes + Count(x.inline) + Count(x.rushed)
  }

  /** Once thread u has taken the lock to cancel w, some continuation of the run, with any
      threads interleaved in any way, resumes w's coroutine twice. */
  ghost predicate Doubled(s: State, u: nat, w: nat)
    requires Enabled(s, LockToCancel(u, w))
  {
    exists steps: seq<Step> :: DoublesIn(s, u, w, steps)
  }

  ghost predicate DoublesIn(s: State, u: nat, w: nat, steps: seq<Step>)
    requires Enabled(s, LockToCancel(u, w))
  {
    var s' := Apply(s, LockToCancel(u, w));
    Legal(s', steps) && Resumptions(At(Exec(s', steps), w)) >= 2
  }

  // A waiter that is linked, with a thread in its await_suspend.

  lemma LinkedDoubles(e: State, u: nat, w: nat)
    requires Basic(e) && Attended(e, w) && Enabled(e, LockToCancel(u, w))
    requires e.waiters[w].linked && !e.waiters[w].suspended
    ensures Doubled(e, u, w)
  {
    assert WaiterOk(e.waiters[w]);
    CancelIs(e, u, w);
    var t: nat :| Inside(e, t, w);
    PastUnlocking(e, t, w);
    SuspendEnds(Cancelled(e, w), t, w);
    var steps := RestThen(Cancelled(e, w), t, []);
    steps := RestThen(Apply(e, LockToCancel(u, w)), u, steps);
    assert DoublesIn(e, u, w, steps);
  }

  // A waiter that is not linked yet.

  /** The callback on a waiter that was never linked leaves it a stray, for every idle
      thread. */
  lemma CancelledStray(e: State, u: nat, t: nat, w: nat)
    requires Basic(e) && Enabled(e, LockToCancel(u, w)) && !e.waiters[w].entered
    requires t < |e.threads| && e.threads[t].Idle?
    ensures Cancel(e, u, w) == Cancelled(e, w) && Stray(Cancelled(e, w), t, w)
    ensures Cancelled(e, w).waiters[w].wakes == 1 && Cancelled(e, w).waiters[w].need == e.waiters[w].need
    ensures Cancelled(e, w).core.permits == e.core.permits
  {
    CancelIs(e, u, w);
    assert WaiterOk(e.waiters[w]);
  }

  /** Its own thread resumes a stray in any case, granted or not. */
  lemma LinkedResumes(s: State, t: nat, w: nat)
    requires Stray(s, t, w)
    ensures Resumptions(At(Linked(s, w), w)) == s.waiters[w].wakes + 1
  {
    var x, y := s.waiters[w], Linked(s, w).waiters[w];
    if s.core.permits < x.need {
      assert y.rushed && !y.inline && y.wakes == x.wakes;
    } else {
      assert y.inline && !y.rushed && y.wakes == x.wakes;
    }
  }

  lemma StrayMore(s: State, t: nat, w: nat)
    requires Stray(s, t, w)
    ensures Stray(Apply(s, NewThread), |s.threads|, w)
  {
  }

  lemma UnlinkedDoubles(e: State, u: nat, w: nat)
    requires Basic(e) && Enabled(e, LockToCancel(u, w)) && !e.waiters[w].entered
    ensures Doubled(e, u, w)
  {
    CancelledStray(e, u, u, w);
    var c := Cancelled(e, w);
    StrayMore(c, u, w);
    var c1 := Apply(c, NewThread);
    LinkedResumes(c1, |c.threads|, w);
    var steps := LinkingRun(c1, |c.threads|, w);
    steps := Before(c, NewThread, steps);
    steps := RestThen(Apply(e, LockToCancel(u, w)), u, steps);
    assert DoublesIn(e, u, w, steps);
  }

  // A waiter whose await_suspend has ended.

  /** Waiter w is out of the queue for good and nobody is in its await_suspend. */
  ghost predicate Gone(s: State, w: nat) {
    && w < |s.waiters| && w !in s.core.queue && (forall t: nat :: !Inside(s, t, w))
    && (var x := s.waiters[w]; x.entered && !x.linked && !x.acquired && !x.inline && !x.rushed)
    && WokenOnce(s, w)
  }

  /** Thread t moves; w gets at most the cancelled mark, and what was collected of its handle
      is booked. */
  lemma StaysGone(s: State, s': State, t: nat, w: nat)
    requires Gone(s, w) && t < |s.threads| && |s'.waiters| >= |s.waiters|
    requires |s'.threads| == |s.threads| && s'.threads == s.threads[t := s'.threads[t]]
    requires Enqueued(s'.threads[t]) != Some(w) && w !in s'.core.queue
    requires var x, y := s.waiters[w], s'.waiters[w];
      && y.entered && !y.linked && !y.acquired && !y.inline && !y.rushed
      && y.wakes + multiset(Buffer(s'.threads[t]))[w] + Count(x.cancelled)
         == x.wakes + multiset(Buffer(s.threads[t]))[w] + Count(y.cancelled)
    ensures Gone(s', w)
  {
    BufferChange(s.threads, t, s'.threads[t], w);
    forall u: nat
      ensures !Inside(s', u, w)
    {
      assert !Inside(s, u, w);
    }
  }

  lemma GonePop(s: State, t: nat, self: Option<nat>, buf: seq<nat>, w: nat)
    requires Gone(s, w) && t < |s.threads| && s.threads[t] == GrantPop(self, buf)
    ensures Gone(GrantPopApply(s, t, self, buf), w)
  {
    assert !Inside(s, t, w);
    if s.core.queue != [] {
      CountLast(buf, s.core.queue[0], w);
      assert s.core.queue[0] in s.core.queue;
      StaysGone(s, GrantPopApply(s, t, self, buf), t, w);
    }
  }

  lemma GoneWake(s: State, t: nat, self: Option<nat>, buf: seq<nat>, w: nat)
    requires Gone(s, w) && t < |s.threads| && s.threads[t] == Waking(self, buf)
    ensures Gone(WakeApply(s, t, self, buf), w)
  {
    assert !Inside(s, t, w);
    if buf != [] {
      CountFirst(buf, w);
    }
    StaysGone(s, WakeApply(s, t, self, buf), t, w);
  }

  lemma GoneCancel(s: State, t: nat, v: nat, w: nat)
    requires Gone(s, w) && t < |s.threads| && s.threads[t] == Cancelling(v)
    ensures Gone(CancelApply(s, t, v), w)
  {
    assert w !in Remove(s.core, v).queue;
    StaysGone(s, CancelApply(s, t, v), t, w);
  }

  lemma GoneDrop(s: State, t: nat, v: nat, w: nat)
    requires Gone(s, w) && t < |s.threads| && s.threads[t] == Dropping(v)
    ensures Gone(DropApply(s, t, v), w)
  {
    assert w !in Remove(s.core, v).queue;
    StaysGone(s, DropApply(s, t, v), t, w);
  }

  lemma GoneOther(s: State, t: nat, ok: bool, w: nat)
    requires Gone(s, w) && t < |s.threads| && (s.threads[t].Linking? || s.threads[t].SuspendTail?)
    ensures Gone(AdvanceApply(s, t, ok), w)
  {
    assert !Inside(s, t, w);
    StaysGone(s, AdvanceApply(s, t, ok), t, w);
  }

  lemma GoneAdvance(s: State, t: nat, ok: bool, w: nat)
    requires Gone(s, w) && t < |s.threads|
    ensures Gone(AdvanceApply(s, t, ok), w)
  {
    match s.threads[t]
    case GrantPop(self, buf) => GonePop(s, t, self, buf, w);
    case Waking(self, buf) => GoneWake(s, t, self, buf, w);
    case Cancelling(v) => GoneCancel(s, t, v, w);
    case Dropping(v) => GoneDrop(s, t, v, w);
    case Linking(v) => GoneOther(s, t, ok, w);
    case SuspendTail(v) => GoneOther(s, t, ok, w);
    case Idle =>
    case _ =>
      PlainMoves(s, t, ok);
      assert !Inside(s, t, w);
      StaysGone(s, AdvanceApply(s, t, ok), t, w);
  }

  lemma GoneCall(s: State, step: Step, w: nat)
    requires Gone(s, w) && Enabled(s, step)
    requires step.ReleaseAdd? || step.PermitDrop? || step.TryLock? || step.LockToEnqueue? || step.LockToCancel?
        || step.LockToDrop?
    ensures Gone(Apply(s, step), w)
  {
    StaysGone(s, Apply(s, step), step.t, w);
  }

  lemma GoneArrival(s: State, w: nat)
    requires Gone(s, w)
    ensures Gone(s.(threads := s.threads + [Idle]), w)
  {
    var s' := s.(threads := s.threads + [Idle]);
    assert Occurrences(s'.threads, w) == Occurrences(s.threads, w) + [0];
    SumAppend(Occurrences(s.threads, w), 0);
    forall u: nat
      ensures !Inside(s', u, w)
    {
      assert !Inside(s, u, w);
    }
  }

  lemma GoneElse(s: State, s': State, w: nat)
    requires Gone(s, w) && s'.threads == s.threads && s'.core == s.core && |s'.waiters| >= |s.waiters|
    requires var x, y := s.waiters[w], s'.waiters[w]; y == x.(settled := y.settled)
    ensures Gone(s', w)
  {
    forall u: nat
      ensures !Inside(s', u, w)
    {
      assert !Inside(s, u, w);
    }
  }

  lemma GoneStep(s: State, step: Step, w: nat)
    requires Gone(s, w) && Enabled(s, step)
    ensures Gone(Apply(s, step), w)
  {
    match step
    case Advance(t, ok) => GoneAdvance(s, t, ok, w);
    case NewThread => GoneArrival(s, w);
    case NewWaiter(_) => GoneElse(s, Apply(s, step), w);
    case Resume(_) => GoneElse(s, Apply(s, step), w);
    case TryZero => GoneElse(s, Apply(s, step), w);
    case PermitMove(_) => GoneElse(s, Apply(s, step), w);
    case PermitMerge(_, _) => GoneElse(s, Apply(s, step), w);
    case PermitForget(_) => GoneElse(s, Apply(s, step), w);
    case _ => GoneCall(s, step, w);
  }

  lemma {:induction false} GoneRun(s: State, steps: seq<Step>, w: nat)
    requires Gone(s, w) && Legal(s, steps)
    ensures Gone(Exec(s, steps), w)
    decreases |steps|
  {
    if steps == [] {
    } else {
      GoneStep(s, steps[0], w);
      GoneRun(Apply(s, steps[0]), steps[1..], w);
    }
  }

  lemma GoneOnce(s: State, w: nat)
    requires Gone(s, w)
    ensures Resumptions(At(s, w)) <= 1
  {
    SumNonNegative(Occurrences(s.threads, w));
  }

  /** Cancelled out of order after its await_suspend ended: its awaiter's destructor has taken
      it out of the queue. */
  lemma GoneNeverDoubles(e: State, u: nat, w: nat)
    requires Basic(e) && AllWokenOnce(e) && Enabled(e, LockToCancel(u, w))
    requires var x := e.waiters[w]; x.suspended && !x.linked && !x.acquired && !x.cancelled
    ensures !Doubled(e, u, w)
  {
    assert WaiterOk(e.waiters[w]) && WokenOnce(e, w);
    forall t: nat
      ensures !Inside(e, t, w)
    {
      if t < |e.threads| {
        assert PcOk(e, e.threads[t]);
      }
    }
    forall steps: seq<Step> | Legal(Apply(e, LockToCancel(u, w)), steps)
      ensures !DoublesIn(e, u, w, steps)
    {
      GoneStep(e, LockToCancel(u, w), w);
      GoneRun(Apply(e, LockToCancel(u, w)), steps, w);
      GoneOnce(Exec(Apply(e, LockToCancel(u, w)), steps), w);
    }
  }

  /** Cancelled in order. */
  lemma OrderNeverDoubles(e: State, u: nat, w: nat)
    requires Basic(e) && AllWokenOnce(e) && Enabled(e, LockToCancel(u, w)) && CancelInOrder(e, LockToCancel(u, w))
    ensures !Doubled(e, u, w)
  {
    var s := Apply(e, LockToCancel(u, w));
    BasicStep(e, LockToCancel(u, w));
    WakesStep(e, LockToCancel(u, w));
    forall steps: seq<Step> | Legal(s, steps)
      ensures !DoublesIn(e, u, w, steps)
    {
      WakesRun(s, steps);
      OnceIn(Exec(s, steps), w);
    }
  }

  lemma OnceIn(s: State, w: nat)
    requires Basic(s) && AllWokenOnce(s)
    ensures Resumptions(At(s, w)) <= 1
  {
    if w < |s.waiters| {
      assert WokenOnce(s, w) && WaiterOk(s.waiters[w]);
      SumNonNegative(Occurrences(s.threads, w));
    }
  }

  /** In every reachable state a cancellation of w can resume w's coroutine twice if and only
      if w's await_suspend has not ended and w is not granted yet, whether linked or not: then
      some continuation does, and otherwise none does. */
  lemma DoubleResumption(s: State, steps: seq<Step>, u: nat, w: nat)
    requires Init(s) && Legal(s, steps) && Enabled(Exec(s, steps), LockToCancel(u, w))
    ensures var e := Exec(s, steps); var x := e.waiters[w];
      Doubled(e, u, w) <==> !x.suspended && !x.acquired && !x.cancelled
  {
    Reached(s, steps, w);
    Doubles(Exec(s, steps), u, w);
  }

  lemma Reached(s: State, steps: seq<Step>, w: nat)
    requires Init(s) && Legal(s, steps)
    ensures var e := Exec(s, steps); Basic(e) && AllWokenOnce(e) && Attended(e, w)
  {
    WakesRun(s, steps);
    AttendedRun(s, steps, w);
  }

  lemma Doubles(e: State, u: nat, w: nat)
    requires Basic(e) && AllWokenOnce(e) && Attended(e, w) && Enabled(e, LockToCancel(u, w))
    ensures var x := e.waiters[w]; Doubled(e, u, w) <==> !x.suspended && !x.acquired && !x.cancelled
  {
    var x := e.waiters[w];
    assert WaiterOk(x);
    if CancelInOrder(e, LockToCancel(u, w)) {
      OrderNeverDoubles(e, u, w);
    } else if x.suspended {
      GoneNeverDoubles(e, u, w);
    } else if x.linked {
      LinkedDoubles(e, u, w);
    } else {
      UnlinkedDoubles(e, u, w);
    }
  }

  // ----- the order is exact -----

  /** The callback run by u harms nobody: whoever else was queued still is, no coroutine can be
      resumed twice, and the handle it gives away is that of a waiter it took out of the
      queue. */
  ghost predicate Harmless(s: State, u: nat, w: nat)
    requires Enabled(s, LockToCancel(u, w))
  {
    var e := Cancel(s, u, w);
    && (forall v :: v in s.core.queue && v != w ==> v in e.core.queue)
    && !Doubled(s, u, w)
    && (At(e, w).wakes > At(s, w).wakes ==> w in s.core.queue && w !in e.core.queue)
  }

  /** In every reachable state, a cancellation is harmless if and only if it comes in
      order. */
  lemma OrderIsExact(s: State, steps: seq<Step>, u: nat, w: nat)
    requires Init(s) && Legal(s, steps) && Enabled(Exec(s, steps), LockToCancel(u, w))
    ensures var e := Exec(s, steps);
      Harmless(e, u, w) <==> CancelInOrder(e, LockToCancel(u, w))
  {
    Reached(s, steps, w);
    var e := Exec(s, steps);
    Doubles(e, u, w);
    CancelIs(e, u, w);
    assert WaiterOk(e.waiters[w]);
    if e.waiters[w].linked {
      WithoutMembers(e.core.queue, IndexOf(e.core.queue, w));
    }
  }

  // ----- a cancellation before linking, and the node it leaves behind -----

  /** In every reachable state, a waiter that is cancelled before it is linked is linked all
      the same by its await_suspend, run to the end by any idle thread. Its coroutine is
      resumed by the runtime and by its own thread. With too few permits free the node stays
      in the queue after its await_suspend is over, and with the enqueued mark cleared
      nobody takes it out; else it is granted. */
  lemma CancelBeforeLinking(s: State, steps: seq<Step>, u: nat, t: nat, w: nat) returns (after: seq<Step>)
    requires Init(s) && Legal(s, steps) && Enabled(Exec(s, steps), LockToCancel(u, w))
    requires var e := Exec(s, steps); !e.waiters[w].entered && t < |e.threads| && e.threads[t].Idle?
    ensures var e := Exec(s, steps); var c := Cancel(e, u, w);
      && Legal(c, after)
      && var f := Exec(c, after); var x := At(f, w); var need := e.waiters[w].need;
         && f.threads == e.threads && f.lock == None && w < |f.waiters| && x.need == need
         && x.cancelled && x.wakes == 1 && Resumptions(x) == 2
         && (x.rushed <==> e.core.permits < need) && (x.inline <==> e.core.permits >= need)
         && f.core == if e.core.permits < need then Core(e.core.permits, true, [w])
                      else Core(e.core.permits - need, false, [])
  {
    Reached(s, steps, w);
    var e := Exec(s, steps);
    CancelledStray(e, u, t, w);
    LinkedResumes(Cancelled(e, w), t, w);
    after := LinkingRun(Cancelled(e, w), t, w);
  }

  /** The pass of a release by idle thread t that finds only w queued, and enough permits. */
  function GrantedBy(s: State, t: nat, n: nat, w: nat, wakes: nat): State {
    var x := At(s, w);
    SetWaiter(s.(core := Core(s.core.permits + n - x.need, false, []), released := s.released + n), w,
              x.(acquired := true, linked := false, wakes := x.wakes + wakes))
  }

  lemma WakeEnds(s: State, t: nat, n: nat, w: nat)
    requires t < |s.threads| && w < |s.waiters| && s.lock == None
    ensures Rest(SetPc(GrantedBy(s, t, n, w, 0).(lock := Some(t)), t, Unlocking(None, [w])), t)
         == SetPc(GrantedBy(s, t, n, w, 1), t, Idle)
  {
    Unlocks(GrantedBy(s, t, n, w, 0).(lock := Some(t)), t, [w]);
    var x := At(s, w);
    var y := x.(acquired := true, linked := false);
    assert y.(wakes := x.wakes + 0) == y;
  }

  lemma PassEnds(s: State, t: nat, n: nat, w: nat) returns (steps: seq<Step>)
    requires t < |s.threads| && w < |s.waiters| && s.lock == None
    ensures Legal(SetPc(GrantedBy(s, t, n, w, 0).(lock := Some(t)), t, GrantLoad(None, [w])), steps)
    ensures Exec(SetPc(GrantedBy(s, t, n, w, 0).(lock := Some(t)), t, GrantLoad(None, [w])), steps)
         == SetPc(GrantedBy(s, t, n, w, 1), t, Idle)
  {
    var g := GrantedBy(s, t, n, w, 0).(lock := Some(t));
    var s1 := SetPc(g, t, GrantLoad(None, [w]));
    var s2 := SetPc(g, t, Unlocking(None, [w]));
    assert AdvanceApply(s1, t, true) == s2;
    WakeEnds(s, t, n, w);
    steps := RestThen(s2, t, []);
    steps := Before(s1, Advance(t, true), steps);
  }

  lemma PopOnly(s: State, t: nat, w: nat)
    requires t < |s.threads| && s.threads[t] == GrantPop(None, []) && w < |s.waiters| && s.core.queue == [w]
    ensures GrantPopApply(s, t, None, []) ==
      SetPc(SetWaiter(s.(core := Core(s.core.permits, false, [])), w, s.waiters[w].(acquired := true, linked := false)),
            t, GrantLoad(None, [w]))
  {
    assert Without([w], 0) == [] && [] + [w] == [w];
  }

  /** From the release to the exchange of its pass. */
  lemma PassStarts(s: State, t: nat, n: nat, w: nat, rest: seq<Step>) returns (steps: seq<Step>)
    requires t < |s.threads| && s.threads[t].Idle? && s.lock == None && w < |s.waiters| && n > 0
    requires s.core.queue == [w] && s.core.hasWaiters && s.core.permits + n >= s.waiters[w].need
    requires Legal(AtPop(s, t, n, w), rest)
    ensures Legal(s, steps) && Exec(s, steps) == Exec(AtPop(s, t, n, w), rest)
  {
    var p := AddPermits(s, n).(released := s.released + n);
    var s1 := Apply(s, ReleaseAdd(t, n));
    var s2 := AdvanceApply(s1, t, true);
    assert s2 == SetPc(p, t, GrantEntry);
    var q := p.(lock := Some(t));
    var s3 := AdvanceApply(s2, t, true);
    assert s3 == SetPc(q, t, GrantLoad(None, []));
    var s4 := AdvanceApply(s3, t, true);
    assert s4 == SetPc(q, t, GrantCas(None, [], p.core.permits));
    assert AdvanceApply(s4, t, true) == AtPop(s, t, n, w);
    steps := Before(s4, Advance(t, true), rest);
    steps := Before(s3, Advance(t, true), steps);
    steps := Before(s2, Advance(t, true), steps);
    steps := Before(s1, Advance(t, true), steps);
    steps := Before(s, ReleaseAdd(t, n), steps);
  }

  function AtPop(s: State, t: nat, n: nat, w: nat): State {
    SetPc(AddPermits(s, n - At(s, w).need).(released := s.released + n, lock := Some(t)), t, GrantPop(None, []))
  }

  /** A release by idle thread t that finds only w queued, and enough permits, run to its
      end. */
  lemma ReleaseToOnly(s: State, t: nat, n: nat, w: nat) returns (steps: seq<Step>)
    requires t < |s.threads| && s.threads[t].Idle? && s.lock == None && w < |s.waiters| && n > 0
    requires s.core.queue == [w] && s.core.hasWaiters && s.core.permits + n >= s.waiters[w].need
    ensures Legal(s, steps)
    ensures var f := Exec(s, steps);
      && f.core == Core(s.core.permits + n - s.waiters[w].need, false, []) && f.threads == s.threads
      && At(f, w) == s.waiters[w].(acquired := true, linked := false, wakes := s.waiters[w].wakes + 1)
  {
    var s5 := AtPop(s, t, n, w);
    PopOnly(s5, t, w);
    assert AdvanceApply(s5, t, true) == SetPc(GrantedBy(s, t, n, w, 0).(lock := Some(t)), t, GrantLoad(None, [w]));
    steps := PassEnds(s, t, n, w);
    steps := Before(s5, Advance(t, true), steps);
    steps := PassStarts(s, t, n, w, steps);
    assert SetPc(GrantedBy(s, t, n, w, 1), t, Idle).threads == s.threads;
  }

  /** A release after that spends permits on the node of an awaiter that is gone, which nobody
      returns, and gives its handle to the runtime once more. */
  lemma DeadNodeTakesPermits(s: State, steps: seq<Step>, u: nat, t: nat, w: nat, n: nat)
      returns (after: seq<Step>, later: seq<Step>)
    requires Init(s) && Legal(s, steps) && Enabled(Exec(s, steps), LockToCancel(u, w))
    requires var e := Exec(s, steps); !e.waiters[w].entered && t < |e.threads| && e.threads[t].Idle?
    requires var e := Exec(s, steps); e.core.permits < e.waiters[w].need <= e.core.permits + n
    ensures var e := Exec(s, steps); var c := Cancel(e, u, w);
      && Legal(c, after) && Exec(c, after).core.queue == [w] && At(Exec(c, after), w).rushed
      && Legal(Exec(c, after), later)
      && var g := Exec(Exec(c, after), later); var x := At(g, w);
         && g.core == Core(e.core.permits + n - e.waiters[w].need, false, []) && g.threads == e.threads
         && x.cancelled && x.acquired && x.wakes == 2 && Resumptions(x) == 3
  {
    after := CancelBeforeLinking(s, steps, u, t, w);
    var e := Exec(s, steps);
    CancelIs(e, u, w);
    later := ReleaseToOnly(Exec(Cancel(e, u, w), after), t, n, w);
  }
}
