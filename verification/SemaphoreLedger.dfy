/** Where every permit is, in every reachable state of the semaphore protocol. */
module SemaphoreLedger {
  import opened Options
  import opened SemaphoreProtocol
  import opened SemaphoreSafety
  import opened Sums

  /** Permits granted to a waiter that has neither resumed nor given them back. */
  function Due(x: Waiter): nat {
    if x.acquired && !x.settled then x.need else 0
  }

  function DueList(ws: seq<Waiter>): seq<int> {
    seq(|ws|, i requires 0 <= i < |ws| => Due(ws[i]))
  }

  /** Permits taken by a compare-exchange whose waiter is not marked yet. */
  function InHand(s: State): nat {
    if s.lock.Some? && PcOf(s, s.lock.value).GrantPop? then HeadNeed(s) else 0
  }

  function Accounted(s: State): int {
    s.core.permits + InHand(s) + Sum(DueList(s.waiters)) + Sum(s.held) + s.forgotten
  }

  ghost predicate Balanced(s: State) {
    Accounted(s) == s.initial + s.released
  }

  lemma DueChange(ws: seq<Waiter>, w: nat, x: Waiter)
    requires w < |ws|
    ensures Sum(DueList(ws[w := x])) == Sum(DueList(ws)) - Due(ws[w]) + Due(x)
  {
    assert DueList(ws[w := x]) == DueList(ws)[w := Due(x)];
    SumUpdate(DueList(ws), w, Due(x));
  }

  lemma DueArrival(ws: seq<Waiter>, x: Waiter)
    ensures Sum(DueList(ws + [x])) == Sum(DueList(ws)) + Due(x)
  {
    assert DueList(ws + [x]) == DueList(ws) + [Due(x)];
    SumAppend(DueList(ws), Due(x));
  }

  ghost predicate SameBooks(s: State, s': State) {
    s'.forgotten == s.forgotten && s'.released == s.released && s'.initial == s.initial
  }

  lemma OneWaiter(s: State, s': State, w: nat, x: Waiter)
    requires Balanced(s) && SameBooks(s, s') && s'.held == s.held
    requires w < |s.waiters| && s'.waiters == s.waiters[w := x]
    requires s'.core.permits + InHand(s') + Due(x) == s.core.permits + InHand(s) + Due(s.waiters[w])
    ensures Balanced(s')
  {
    DueChange(s.waiters, w, x);
  }

  lemma GrantBalanced(s: State, t: nat, self: Option<nat>, buf: seq<nat>)
    requires Basic(s) && Balanced(s) && t < |s.threads| && s.threads[t] == GrantPop(self, buf)
    ensures Balanced(GrantPopApply(s, t, self, buf)) && SameBooks(s, GrantPopApply(s, t, self, buf))
  {
    var s' := GrantPopApply(s, t, self, buf);
    assert PcOk(s, s.threads[t]) && Holds(s.threads[t]) && s.lock == Some(t);
    var w := s.core.queue[0];
    assert w in s.core.queue && WaiterOk(s.waiters[w]);
    OneWaiter(s, s', w, s'.waiters[w]);
  }

  lemma RemovalBalanced(s: State, t: nat, w: nat)
    requires Basic(s) && Balanced(s) && t < |s.threads|
    ensures s.threads[t] == Cancelling(w) ==> Balanced(CancelApply(s, t, w)) && SameBooks(s, CancelApply(s, t, w))
    ensures s.threads[t] == Dropping(w) ==> Balanced(DropApply(s, t, w)) && SameBooks(s, DropApply(s, t, w))
  {
    if s.threads[t] == Cancelling(w) || s.threads[t] == Dropping(w) {
      assert PcOk(s, s.threads[t]) && PcInRange(s.threads[t], |s.waiters|);
      assert Holds(s.threads[t]) && s.lock == Some(t);
      assert WaiterOk(s.waiters[w]);
      var s' := if s.threads[t] == Cancelling(w) then CancelApply(s, t, w) else DropApply(s, t, w);
      OneWaiter(s, s', w, s'.waiters[w]);
    }
  }

  lemma MarksBalanced(s: State, t: nat)
    requires Basic(s) && Balanced(s) && t < |s.threads|
    requires var pc := s.threads[t]; pc.Linking? || pc.Waking? || pc.SuspendTail?
    ensures Balanced(AdvanceApply(s, t, true)) && SameBooks(s, AdvanceApply(s, t, true))
  {
    var s' := AdvanceApply(s, t, true);
    var pc := s.threads[t];
    assert PcOk(s, pc) && PcInRange(pc, |s.waiters|);
    assert Holds(pc) <==> s.lock == Some(t);
    if pc.Waking? {
      if pc.buf != [] {
        assert pc.buf[0] == Buffer(pc)[0];
        OneWaiter(s, s', pc.buf[0], s'.waiters[pc.buf[0]]);
      }
    } else {
      assert WaiterOk(s.waiters[pc.w]);
      OneWaiter(s, s', pc.w, s'.waiters[pc.w]);
    }
  }

  lemma PlainBalanced(s: State, t: nat, ok: bool)
    requires Basic(s) && Balanced(s) && Enabled(s, Advance(t, ok))
    requires var pc := s.threads[t]; pc.FlagTest? || pc.GrantEntry? || pc.TryLoad? || pc.TryCas? || pc.GrantLoad? || pc.GrantCas? || pc.Unlocking?
    ensures Balanced(AdvanceApply(s, t, ok)) && SameBooks(s, AdvanceApply(s, t, ok))
  {
    var pc := s.threads[t];
    assert Holds(pc) <==> s.lock == Some(t);
    if pc.TryCas? {
      SumAppend(s.held, pc.n);
    }
  }

  lemma AdvanceBalanced(s: State, t: nat, ok: bool)
    requires Basic(s) && Balanced(s) && Enabled(s, Advance(t, ok))
    ensures Balanced(AdvanceApply(s, t, ok)) && SameBooks(s, AdvanceApply(s, t, ok))
  {
    match s.threads[t]
    case Linking(w) => MarksBalanced(s, t);
    case Waking(self, buf) => MarksBalanced(s, t);
    case SuspendTail(w) => MarksBalanced(s, t);
    case GrantPop(self, buf) => GrantBalanced(s, t, self, buf);
    case Cancelling(w) => RemovalBalanced(s, t, w);
    case Dropping(w) => RemovalBalanced(s, t, w);
    case _ => PlainBalanced(s, t, ok);
  }

  lemma PermitsBalanced(s: State, step: Step)
    requires Balanced(s) && Enabled(s, step)
    requires step.TryZero? || step.PermitMove? || step.PermitMerge? || step.PermitForget?
    ensures Balanced(Apply(s, step))
  {
    match step
    case TryZero => SumAppend(s.held, 0);
    case PermitMove(p) =>
      SumUpdate(s.held, p, 0);
      SumAppend(s.held[p := 0], s.held[p]);
    case PermitMerge(p, q) =>
      SumUpdate(s.held, p, s.held[p] + s.held[q]);
      SumUpdate(s.held[p := s.held[p] + s.held[q]], q, 0);
    case PermitForget(p) => SumUpdate(s.held, p, 0);
  }

  lemma CallsBalanced(s: State, step: Step)
    requires Basic(s) && Balanced(s) && Enabled(s, step)
    requires step.ReleaseAdd? || step.PermitDrop? || step.TryLock? || step.LockToEnqueue? || step.LockToCancel?
        || step.LockToDrop?
    ensures Balanced(Apply(s, step))
  {
    match step
    case PermitDrop(t, p) => SumUpdate(s.held, p, 0);
    case LockToDrop(t, w) =>
      DueChange(s.waiters, w, s.waiters[w].(dropped := true));
    case _ =>
  }

  lemma BalancedStep(s: State, step: Step)
    requires Basic(s) && Balanced(s) && Enabled(s, step)
    ensures Balanced(Apply(s, step))
  {
    match step
    case Advance(t, ok) => AdvanceBalanced(s, t, ok);
    case NewThread =>
    case NewWaiter(n) => ArrivalBalanced(s, n);
    case Resume(w) => ResumeBalanced(s, w);
    case TryZero => PermitsBalanced(s, step);
    case PermitMove(p) => PermitsBalanced(s, step);
    case PermitMerge(p, q) => PermitsBalanced(s, step);
    case PermitForget(p) => PermitsBalanced(s, step);
    case _ => CallsBalanced(s, step);
  }

  lemma ArrivalBalanced(s: State, n: nat)
    requires Basic(s) && Balanced(s) && n > 0
    ensures Balanced(Apply(s, NewWaiter(n)))
  {
    DueArrival(s.waiters, FreshWaiter(n));
    assert s.core.queue != [] ==> s.core.queue[0] < |s.waiters|;
  }

  lemma ResumeBalanced(s: State, w: nat)
    requires Basic(s) && Balanced(s) && Enabled(s, Resume(w))
    ensures Balanced(ResumeApply(s, w))
  {
    var x := s.waiters[w];
    DueChange(s.waiters, w, x.(settled := true));
    if x.acquired {
      SumAppend(s.held, x.need);
    }
  }

  lemma {:induction false} BalancedRun(s: State, steps: seq<Step>)
    requires Basic(s) && Balanced(s) && Legal(s, steps)
    ensures Basic(Exec(s, steps)) && Balanced(Exec(s, steps))
    decreases |steps|
  {
    if steps == [] {
    } else {
      BasicStep(s, steps[0]);
      BalancedStep(s, steps[0]);
      BalancedRun(Apply(s, steps[0]), steps[1..]);
    }
  }

  lemma InitHolds(s: State)
    requires Init(s)
    ensures Basic(s) && Balanced(s)
  {
    SumZero(DueList(s.waiters));
  }

  /** Free permits, permits in hand, permits due to granted waiters, permits in permit
      objects and forgotten ones always add up to the initial and the released ones;
      so the counter never goes negative, and it stays at or below any bound on
      initial + released (no wrap-around while that is at most MAX_PERMITS). */
  lemma PermitConservation(s: State, steps: seq<Step>)
    requires Init(s) && Legal(s, steps)
    ensures var e := Exec(s, steps);
      && Accounted(e) == e.initial + e.released
      && 0 <= e.core.permits <= e.initial + e.released
  {
    InitHolds(s);
    BalancedRun(s, steps);
    var e := Exec(s, steps);
    SumNonNegative(DueList(e.waiters));
    SumNonNegative(e.held);
  }

  // ----- the mutex: semaphore{1}, and no release other than a guard's destructor -----

  ghost predicate MutexUse(steps: seq<Step>) {
    forall i :: 0 <= i < |steps| ==> !steps[i].ReleaseAdd?
  }

  /** One entry per possible holder: first the granted waiters that have not resumed,
      then the guards; positive exactly for those that hold the mutex. */
  function Holders(s: State): seq<int> {
    DueList(s.waiters) + s.held
  }

  lemma StepReleases(s: State, step: Step)
    requires Enabled(s, step) && !step.ReleaseAdd?
    ensures Apply(s, step).released == s.released && Apply(s, step).initial == s.initial
  {
    if step.Advance? {
      AdvanceReleases(s, step.t, step.ok);
    }
  }

  lemma AdvanceReleases(s: State, t: nat, ok: bool)
    ensures AdvanceApply(s, t, ok).released == s.released && AdvanceApply(s, t, ok).initial == s.initial
  {
  }

  lemma {:induction false} MutexReleases(s: State, steps: seq<Step>)
    requires Legal(s, steps) && MutexUse(steps)
    ensures Exec(s, steps).released == s.released && Exec(s, steps).initial == s.initial
    decreases |steps|
  {
    if steps == [] {
    } else {
      StepReleases(s, steps[0]);
      MutexReleases(Apply(s, steps[0]), steps[1..]);
    }
  }

  lemma OneHolder(e: State, i: nat, j: nat)
    requires Balanced(e) && e.core.permits >= 0 && e.initial == 1 && e.released == 0
    requires i < |Holders(e)| && j < |Holders(e)| && Holders(e)[i] > 0 && Holders(e)[j] > 0
    ensures i == j && e.core.permits == 0
  {
    SumConcat(DueList(e.waiters), e.held);
    SumOne(Holders(e), i);
    if i < j {
      SumTwo(Holders(e), i, j);
    } else if j < i {
      SumTwo(Holders(e), j, i);
    }
  }

  /** At most one holder, counting a granted waiter that has not resumed yet. */
  lemma MutualExclusion(s: State, steps: seq<Step>, i: nat, j: nat)
    requires Init(s) && s.initial == 1 && Legal(s, steps) && MutexUse(steps)
    requires i < |Holders(Exec(s, steps))| && j < |Holders(Exec(s, steps))|
    requires Holders(Exec(s, steps))[i] > 0 && Holders(Exec(s, steps))[j] > 0
    ensures i == j
    ensures Exec(s, steps).core.permits == 0
  {
    PermitConservation(s, steps);
    MutexReleases(s, steps);
    OneHolder(Exec(s, steps), i, j);
  }
}
