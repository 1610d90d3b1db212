/** The semaphore's calls can always end, whatever state they are in, and no permit stays
    behind: from every reachable state all permits can come back. */
module SemaphoreProgress {
  import opened Options
  import opened SemaphoreProtocol
  import opened SemaphoreSafety
  import opened SemaphoreWindows

  // ----- a thread that runs alone -----

  predicate Fresh(s: State, cur: int) {
    cur == s.core.permits
  }

  /** How many accesses thread t has before it while nobody else takes any. */
  function AccessLeft(s: State, t: nat): nat {
    var q, b := |s.core.queue|, |Buffer(PcOf(s, t))|;
    match PcOf(s, t)
    case Idle => 0
    case SuspendTail(_) => 1
    case Waking(_, _) => b + 2
    case Unlocking(_, _) => b + 3
    case TryCas(_, cur) => if Fresh(s, cur) then 4 else 6
    case TryLoad(_) => 5
    case GrantPop(_, _) => 4 * q + b + 2
    case GrantCas(_, _, cur) => 4 * q + b + if Fresh(s, cur) then 3 else 5
    case GrantLoad(_, _) => 4 * q + b + 4
    case GrantEntry => 4 * q + 5
    case FlagTest => 4 * q + 6
    case Cancelling(_) => 5
    case Dropping(_) => 4 * q + 5
    case Linking(_) => 4 * q + 9
  }

  ghost predicate Moved(s: State, s': State, t: nat) {
    && t < |s.threads| && |s'.threads| == |s.threads| && s'.threads == s.threads[t := s'.threads[t]]
    && AccessLeft(s', t) < AccessLeft(s, t)
  }

  lemma PlainShrinks(s: State, t: nat)
    requires t < |s.threads| && IsPlain(s.threads[t])
    requires s.threads[t].TryCas? ==> s.threads[t].n > 0
    ensures Moved(s, AdvanceApply(s, t, true), t)
  {
  }

  lemma PopShrinks(s: State, t: nat)
    requires t < |s.threads| && s.threads[t].GrantPop? && s.core.queue != []
    ensures Moved(s, AdvanceApply(s, t, true), t)
  {
  }

  lemma RemovalShrinks(s: State, t: nat)
    requires t < |s.threads| && (s.threads[t].Cancelling? || s.threads[t].Dropping?)
    ensures Moved(s, AdvanceApply(s, t, true), t)
  {
  }

  lemma EndShrinks(s: State, t: nat)
    requires t < |s.threads| && (s.threads[t].Linking? || s.threads[t].Waking? || s.threads[t].SuspendTail?)
    ensures Moved(s, AdvanceApply(s, t, true), t)
  {
  }

  lemma AccessShrinks(s: State, t: nat)
    requires t < |s.threads| && !s.threads[t].Idle? && PcOk(s, s.threads[t])
    ensures Moved(s, AdvanceApply(s, t, true), t)
  {
    match s.threads[t]
    case GrantPop(_, _) => PopShrinks(s, t);
    case Cancelling(_) => RemovalShrinks(s, t);
    case Dropping(_) => RemovalShrinks(s, t);
    case Linking(_) => EndShrinks(s, t);
    case Waking(_, _) => EndShrinks(s, t);
    case SuspendTail(_) => EndShrinks(s, t);
    case _ => PlainShrinks(s, t);
  }

  /** Nobody but t has the lock. */
  predicate Unhindered(s: State, t: nat) {
    t < |s.threads| && (s.lock == None || s.lock == Some(t))
  }

  lemma StaysUnhindered(s: State, s': State, t: nat)
    requires LockOwned(s) && LockOwned(s') && Unhindered(s, t)
    requires |s'.threads| == |s.threads| && s'.threads == s.threads[t := s'.threads[t]]
    ensures Unhindered(s', t)
  {
  }

  ghost predicate Advances(steps: seq<Step>) {
    forall i :: 0 <= i < |steps| ==> steps[i].Advance?
  }

  /** Thread t runs to the end of its call. */
  lemma {:induction false} RunsOut(s: State, t: nat) returns (more: seq<Step>)
    requires Basic(s) && Unhindered(s, t)
    ensures Legal(s, more) && Advances(more) && Basic(Exec(s, more))
    ensures Exec(s, more).threads == s.threads[t := Idle] && Exec(s, more).lock == None
    decreases AccessLeft(s, t)
  {
    if s.threads[t].Idle? {
      more := [];
      assert Holds(s.threads[t]) <==> s.lock == Some(t);
    } else {
      var step := Advance(t, true);
      var s' := AdvanceApply(s, t, true);
      AccessShrinks(s, t);
      BasicStep(s, step);
      StaysUnhindered(s, s', t);
      more := RunsOut(s', t);
      more := Before(s, step, more);
    }
  }

  // ----- all threads, one after the other -----

  function Busy(threads: seq<Pc>): nat {
    if threads == [] then 0 else (if threads[0].Idle? then 0 else 1) + Busy(threads[1..])
  }

  lemma {:induction false} BusyUpdate(threads: seq<Pc>, t: nat)
    requires t < |threads| && !threads[t].Idle?
    ensures Busy(threads[t := Idle]) == Busy(threads) - 1
  {
    if t == 0 {
      assert threads[0 := Idle][1..] == threads[1..];
    } else {
      BusyUpdate(threads[1..], t - 1);
      assert threads[t := Idle][1..] == threads[1..][t - 1 := Idle];
    }
  }

  ghost predicate AllIdle(s: State) {
    s.lock == None && forall t :: 0 <= t < |s.threads| ==> s.threads[t].Idle?
  }

  lemma NextToRun(s: State) returns (t: nat)
    requires LockOwned(s) && !AllIdle(s)
    ensures Unhindered(s, t) && !s.threads[t].Idle?
  {
    if s.lock.Some? {
      t := s.lock.value;
      assert Holds(s.threads[t]);
    } else {
      t :| t < |s.threads| && !s.threads[t].Idle?;
    }
  }

  lemma {:induction false} Concat(s: State, steps: seq<Step>, more: seq<Step>)
    requires Legal(s, steps) && Legal(Exec(s, steps), more)
    ensures Legal(s, steps + more) && Exec(s, steps + more) == Exec(Exec(s, steps), more)
    decreases |steps|
  {
    if steps == [] {
      assert steps + more == more;
    } else {
      Concat(Apply(s, steps[0]), steps[1..], more);
      var both := Before(s, steps[0], steps[1..] + more);
      assert both == steps + more;
    }
  }

  lemma {:induction false} AllRunOut(s: State) returns (more: seq<Step>)
    requires Basic(s)
    ensures Legal(s, more) && Advances(more) && Basic(Exec(s, more)) && AllIdle(Exec(s, more))
    decreases Busy(s.threads)
  {
    if AllIdle(s) {
      more := [];
    } else {
      var t := NextToRun(s);
      var first := RunsOut(s, t);
      BusyUpdate(s.threads, t);
      var rest := AllRunOut(Exec(s, first));
      Concat(s, first, rest);
      more := first + rest;
    }
  }

  /** Every call can end: from each reachable state there is a run of accesses alone that ends
      with all threads outside the semaphore and the lock free. */
  lemma CallsCanEnd(s: State, steps: seq<Step>) returns (more: seq<Step>)
    requires Init(s) && Legal(s, steps)
    ensures Legal(Exec(s, steps), more) && Advances(more) && AllIdle(Exec(Exec(s, steps), more))
  {
    BasicRun(s, steps);
    more := AllRunOut(Exec(s, steps));
  }

  lemma {:induction false} BasicRun(s: State, steps: seq<Step>)
    requires Basic(s) && Legal(s, steps)
    ensures Basic(Exec(s, steps))
    decreases |steps|
  {
    if steps == [] {
    } else {
      BasicStep(s, steps[0]);
      BasicRun(Apply(s, steps[0]), steps[1..]);
    }
  }

  // ----- what a call brings that runs alone -----

  /** After try_acquire by thread t, which took n permits exactly if ok. */
  function Tried(e: State, n: nat, ok: bool): State {
    if ok then AddPermits(e, 0 - n).(held := e.held + [n]) else e
  }

  lemma TryEnds(e: State, t: nat, n: nat, ok: bool) returns (more: seq<Step>)
    requires CanStart(e, t) && e.lock == None
    ensures var s := SetPc(Tried(e, n, ok).(lock := Some(t)), t, Unlocking(None, []));
      Legal(s, more) && Exec(s, more) == Tried(e, n, ok)
  {
    var s := SetPc(Tried(e, n, ok).(lock := Some(t)), t, Unlocking(None, []));
    var s1 := Apply(s, Advance(t, true));
    assert s1 == SetPc(Tried(e, n, ok), t, Waking(None, []));
    assert Apply(s1, Advance(t, true)) == Tried(e, n, ok);
    more := Before(s1, Advance(t, true), []);
    more := Before(s, Advance(t, true), more);
  }

  /** try_acquire that nobody disturbs takes its permits exactly if the queue is empty and
      there are enough; otherwise it changes nothing. */
  lemma TryAlone(e: State, t: nat, n: nat) returns (more: seq<Step>)
    requires CanStart(e, t) && e.lock == None && n > 0
    ensures Legal(e, more) && Exec(e, more) == Tried(e, n, e.core.queue == [] && e.core.permits >= n)
  {
    var ok := e.core.queue == [] && e.core.permits >= n;
    more := TryEnds(e, t, n, ok);
    var s1 := Apply(e, TryLock(t, n));
    if e.core.queue == [] {
      var s2 := Apply(s1, Advance(t, true));
      if ok {
        assert Apply(s2, Advance(t, true)) == SetPc(Tried(e, n, ok).(lock := Some(t)), t, Unlocking(None, []));
        more := Before(s2, Advance(t, true), more);
      } else {
        assert s2 == SetPc(e.(lock := Some(t)), t, Unlocking(None, []));
      }
      more := Before(s1, Advance(t, true), more);
    }
    more := Before(e, TryLock(t, n), more);
  }

  /** In every reachable state a waiter that resumes was either granted, and gets a permit
      object of the size it asked for, or cancelled, and gets none. */
  lemma ResumeGives(s: State, steps: seq<Step>, w: nat)
    requires Init(s) && Legal(s, steps) && Enabled(Exec(s, steps), Resume(w))
    ensures var e := Exec(s, steps); var f := Apply(e, Resume(w)); var x := e.waiters[w];
      && x.acquired == !x.cancelled && f.core == e.core
      && f.held == (if x.acquired then e.held + [x.need] else e.held)
      && !Enabled(f, Resume(w)) && !Enabled(f, LockToDrop(0, w))
  {
    BasicRun(s, steps);
    assert WaiterOk(Exec(s, steps).waiters[w]);
  }

  /** Of two permit objects merged, the first holds the sum; of one moved or forgotten, the
      old one holds nothing. */
  lemma ObjectsCount(e: State, p: nat, q: nat)
    requires p < |e.held| && q < |e.held| && p != q
    ensures var h := Apply(e, PermitMerge(p, q)).held; h[p] == e.held[p] + e.held[q] && h[q] == 0
    ensures var h := Apply(e, PermitMove(p)).held; h[p] == 0 && h[|e.held|] == e.held[p] && h[q] == e.held[q]
    ensures var h := Apply(e, PermitForget(p)).held; h[p] == 0 && h[q] == e.held[q]
  {
  }
}
