/** Whole calls of the semaphore as runs: which thread is inside a waiter's await_suspend,
    how a cancellation ends, and how an await_suspend ends whose waiter was cancelled. */
module SemaphoreCalls {
  import opened Options
  import opened SemaphoreCore
  import opened SemaphoreProtocol
  import opened SemaphoreSafety
  import opened SemaphoreWindows

  // ----- while w is neither suspended nor granted inline, a thread is in its await_suspend -----

  predicate Inside(s: State, t: nat, w: nat) {
    t < |s.threads| && Enqueued(s.threads[t]) == Some(w)
  }

  /** w was linked, and neither way out of its await_suspend was taken. */
  predicate Pending(s: State, w: nat) {
    w < |s.waiters| && s.waiters[w].entered && !s.waiters[w].suspended && !s.waiters[w].inline
  }

  ghost predicate Attended(s: State, w: nat) {
    Pending(s, w) ==> exists t: nat :: Inside(s, t, w)
  }

  /** What a step does to the pending waiters, and to the other threads. */
  ghost predicate Calm(s: State, s': State, t: nat, w: nat) {
    && |s'.threads| == |s.threads|
    && (forall u :: 0 <= u < |s.threads| && u != t ==> s'.threads[u] == s.threads[u])
    && (Pending(s', w) ==> Pending(s, w))
  }

  lemma PopCalm(s: State, t: nat, self: Option<nat>, buf: seq<nat>, w: nat)
    requires t < |s.threads| && s.threads[t] == GrantPop(self, buf)
    ensures var s' := GrantPopApply(s, t, self, buf);
      Calm(s, s', t, w) && Enqueued(s'.threads[t]) == Enqueued(s.threads[t])
  {
  }

  lemma WakeCalm(s: State, t: nat, self: Option<nat>, buf: seq<nat>, w: nat)
    requires t < |s.threads| && s.threads[t] == Waking(self, buf)
    ensures var s' := WakeApply(s, t, self, buf);
      Calm(s, s', t, w) && Enqueued(s'.threads[t]) == Enqueued(s.threads[t])
  {
  }

  lemma RemovalCalm(s: State, t: nat, v: nat, w: nat)
    requires t < |s.threads| && (s.threads[t] == Cancelling(v) || s.threads[t] == Dropping(v))
    ensures s.threads[t] == Cancelling(v) ==> Calm(s, CancelApply(s, t, v), t, w)
    ensures s.threads[t] == Dropping(v) ==> Calm(s, DropApply(s, t, v), t, w)
  {
  }

  lemma OtherCalm(s: State, t: nat, v: nat, w: nat)
    requires t < |s.threads| && v != w
    ensures Calm(s, LinkApply(s, t, v), t, w) && Enqueued(LinkApply(s, t, v).threads[t]) == Some(v)
    ensures Calm(s, SuspendApply(s, t, v), t, w)
  {
  }

  /** Every access but the linking of w itself and the end of its await_suspend. */
  lemma AdvanceCalm(s: State, t: nat, ok: bool, w: nat)
    requires t < |s.threads| && s.threads[t] != Linking(w) && s.threads[t] != SuspendTail(w)
    ensures var s' := AdvanceApply(s, t, ok);
      Calm(s, s', t, w) && (Enqueued(s.threads[t]) == Some(w) ==> Enqueued(s'.threads[t]) == Some(w))
  {
    match s.threads[t]
    case GrantPop(self, buf) => PopCalm(s, t, self, buf, w);
    case Waking(self, buf) => WakeCalm(s, t, self, buf, w);
    case Cancelling(v) => RemovalCalm(s, t, v, w);
    case Dropping(v) => RemovalCalm(s, t, v, w);
    case Linking(v) => OtherCalm(s, t, v, w);
    case SuspendTail(v) => OtherCalm(s, t, v, w);
    case Idle =>
    case _ => PlainMoves(s, t, ok);
  }

  lemma SuspendCalm(s: State, t: nat, w: nat)
    requires Basic(s) && t < |s.threads| && s.threads[t] == SuspendTail(w)
    ensures Attended(AdvanceApply(s, t, true), w)
  {
    assert PcOk(s, s.threads[t]) && PcInRange(s.threads[t], |s.waiters|) && WaiterOk(s.waiters[w]);
  }

  lemma WitnessStays(s: State, s': State, t: nat, w: nat)
    requires Attended(s, w) && Calm(s, s', t, w) && t < |s.threads|
    requires Enqueued(s.threads[t]) == Some(w) ==> Enqueued(s'.threads[t]) == Some(w)
    ensures Attended(s', w)
  {
    if Pending(s', w) {
      var u: nat :| Inside(s, u, w);
      assert Inside(s', u, w);
    }
  }

  lemma AttendedAdvance(s: State, t: nat, ok: bool, w: nat)
    requires Basic(s) && Attended(s, w) && t < |s.threads|
    ensures Attended(AdvanceApply(s, t, ok), w)
  {
    var s' := AdvanceApply(s, t, ok);
    if s.threads[t] == SuspendTail(w) {
      SuspendCalm(s, t, w);
    } else if s.threads[t] == Linking(w) {
      assert Inside(s', t, w);
    } else {
      AdvanceCalm(s, t, ok, w);
      WitnessStays(s, s', t, w);
    }
  }

  lemma AttendedArrival(s: State, step: Step, w: nat)
    requires Attended(s, w) && Enabled(s, step) && (step.NewThread? || step.NewWaiter?)
    ensures Attended(Apply(s, step), w)
  {
    var s' := Apply(s, step);
    if Pending(s', w) {
      var u: nat :| Inside(s, u, w);
      assert Inside(s', u, w);
    }
  }

  lemma AttendedCall(s: State, step: Step, w: nat)
    requires Attended(s, w) && Enabled(s, step) && !step.Advance? && !step.NewThread? && !step.NewWaiter?
    ensures Attended(Apply(s, step), w)
  {
    var s' := Apply(s, step);
    if Pending(s', w) {
      var u: nat :| Inside(s, u, w);
      assert Inside(s', u, w);
    }
  }

  lemma AttendedStep(s: State, step: Step, w: nat)
    requires Basic(s) && Attended(s, w) && Enabled(s, step)
    ensures Attended(Apply(s, step), w)
  {
    if step.Advance? {
      AttendedAdvance(s, step.t, step.ok, w);
    } else if step.NewThread? || step.NewWaiter? {
      AttendedArrival(s, step, w);
    } else {
      AttendedCall(s, step, w);
    }
  }

  lemma {:induction false} AttendedRun(s: State, steps: seq<Step>, w: nat)
    requires Basic(s) && Attended(s, w) && Legal(s, steps)
    ensures Basic(Exec(s, steps)) && Attended(Exec(s, steps), w)
    decreases |steps|
  {
    if steps == [] {
    } else {
      var s', step := Apply(s, steps[0]), steps[0];
      BasicStep(s, step);
      AttendedStep(s, step, w);
      AttendedRun(s', steps[1..], w);
    }
  }

  // ----- the remaining accesses of a call -----

  /** How many accesses a thread has before it, in the callback of a cancellation or after
      the unlocking in await_suspend; other calls are not carried on. */
  function Left(pc: Pc): nat {
    match pc
    case Cancelling(_) => 5
    case Unlocking(_, buf) => |buf| + 3
    case Waking(_, buf) => |buf| + 2
    case SuspendTail(_) => 1
    case _ => 0
  }

  lemma LeftDecreases(s: State, t: nat)
    requires Left(PcOf(s, t)) > 0
    ensures Left(PcOf(AdvanceApply(s, t, true), t)) < Left(PcOf(s, t))
  {
  }

  function Rest(s: State, t: nat): State
    decreases Left(PcOf(s, t))
  {
    if Left(PcOf(s, t)) == 0 then s
    else
      LeftDecreases(s, t);
      Rest(AdvanceApply(s, t, true), t)
  }

  /** Thread u runs the callback that cancels w, to its end. */
  function Cancel(s: State, u: nat, w: nat): State
    requires Enabled(s, LockToCancel(u, w))
  {
    Rest(Apply(s, LockToCancel(u, w)), u)
  }

  /** What has then happened: nothing to a waiter that is acquired or cancelled; any other
      is marked, unlinked whether it was linked or not, and handed to the runtime. */
  function Cancelled(s: State, w: nat): State {
    var x := At(s, w);
    if x.acquired || x.cancelled then s
    else SetWaiter(s.(core := Remove(s.core, w)), w, x.(linked := false, cancelled := true, wakes := x.wakes + 1))
  }

  lemma CancelIs(s: State, u: nat, w: nat)
    requires Enabled(s, LockToCancel(u, w))
    ensures Cancel(s, u, w) == Cancelled(s, w)
  {
    var x := s.waiters[w];
    assert PcOf(Apply(s, LockToCancel(u, w)), u) == Cancelling(w);
    if x.acquired || x.cancelled {
      assert AdvanceApply(Apply(s, LockToCancel(u, w)), u, true) == SetPc(s.(lock := Some(u)), u, Unlocking(None, []));
      Unlocks(s.(lock := Some(u)), u, []);
      assert SetPc(s, u, Idle) == s;
    } else {
      var y := x.(linked := false, cancelled := true);
      var s2 := SetWaiter(s.(core := Remove(s.core, w), lock := Some(u)), w, y);
      Takes(s, s2, u, w, y);
      Unlocks(s2, u, [w]);
    }
  }

  lemma Takes(s: State, s2: State, u: nat, w: nat, y: Waiter)
    requires Enabled(s, LockToCancel(u, w)) && !s.waiters[w].acquired && !s.waiters[w].cancelled
    requires y == s.waiters[w].(linked := false, cancelled := true)
    requires s2 == SetWaiter(s.(core := Remove(s.core, w), lock := Some(u)), w, y)
    ensures AdvanceApply(Apply(s, LockToCancel(u, w)), u, true) == SetPc(s2, u, Unlocking(None, [w]))
    ensures SetPc(SetWaiter(s2.(lock := None), w, y.(wakes := y.wakes + 1)), u, Idle) == Cancelled(s, w)
  {
  }

  /** Unlocking and handing over at most one handle. */
  lemma Unlocks(s: State, u: nat, buf: seq<nat>)
    requires u < |s.threads| && |buf| <= 1
    ensures var e := s.(lock := None);
      Rest(SetPc(s, u, Unlocking(None, buf)), u) == SetPc(
        if buf == [] then e else SetWaiter(e, buf[0], At(s, buf[0]).(wakes := At(s, buf[0]).wakes + 1)), u, Idle)
  {
    var s1 := SetPc(s, u, Unlocking(None, buf));
    assert AdvanceApply(s1, u, true) == SetPc(s.(lock := None), u, Waking(None, buf));
    if buf == [] {
      HandsOverNone(s.(lock := None), u);
    } else {
      HandsOverOne(s.(lock := None), u, buf[0]);
      assert buf == [buf[0]];
    }
  }

  lemma HandsOverNone(s: State, u: nat)
    requires u < |s.threads|
    ensures Rest(SetPc(s, u, Waking(None, [])), u) == SetPc(s, u, Idle)
  {
    assert AdvanceApply(SetPc(s, u, Waking(None, [])), u, true) == SetPc(s, u, Idle);
  }

  lemma HandsOverOne(s: State, u: nat, w: nat)
    requires u < |s.threads|
    ensures Rest(SetPc(s, u, Waking(None, [w])), u) == SetPc(SetWaiter(s, w, At(s, w).(wakes := At(s, w).wakes + 1)), u, Idle)
  {
    var s' := SetWaiter(s, w, At(s, w).(wakes := At(s, w).wakes + 1));
    assert [w][1..] == [];
    assert AdvanceApply(SetPc(s, u, Waking(None, [w])), u, true) == SetPc(s', u, Waking(None, []));
    HandsOverNone(s', u);
  }

  /** A thread past the unlocking in w's await_suspend finishes it: the coroutine carries on
      by itself, against the runtime, exactly if it sees w cancelled and not its own grant. */
  lemma {:induction false} SuspendEnds(s: State, t: nat, w: nat)
    requires t < |s.threads| && w < |s.waiters|
    requires s.threads[t] == SuspendTail(w) || (s.threads[t].Waking? && s.threads[t].self == Some(w))
    ensures w < |Rest(s, t).waiters|
    ensures Rest(s, t).waiters[w].rushed <==> s.waiters[w].rushed || (s.waiters[w].cancelled && !s.waiters[w].inline)
    ensures Rest(s, t).waiters[w].wakes >= s.waiters[w].wakes
    decreases Left(s.threads[t])
  {
    var s' := AdvanceApply(s, t, true);
    assert Rest(s, t) == Rest(s', t);
    if s.threads[t].Waking? {
      LeftDecreases(s, t);
      SuspendEnds(s', t, w);
    } else {
      assert s'.threads[t] == Idle;
    }
  }

  lemma PastUnlocking(s: State, t: nat, w: nat)
    requires Basic(s) && s.lock == None && Inside(s, t, w)
    ensures w < |s.waiters| && !s.waiters[w].suspended && s.waiters[w].entered && !s.waiters[w].rushed
    ensures s.threads[t] == SuspendTail(w) || (s.threads[t].Waking? && s.threads[t].self == Some(w))
  {
    assert PcOk(s, s.threads[t]) && PcInRange(s.threads[t], |s.waiters|) && WaiterOk(s.waiters[w]);
    assert !Holds(s.threads[t]);
  }

  /** The rest of a call is a run. */
  lemma {:induction false} RestThen(s: State, t: nat, rest: seq<Step>) returns (steps: seq<Step>)
    requires Legal(Rest(s, t), rest)
    ensures Legal(s, steps) && Exec(s, steps) == Exec(Rest(s, t), rest)
    decreases Left(PcOf(s, t))
  {
    if Left(PcOf(s, t)) == 0 {
      steps := rest;
    } else {
      LeftDecreases(s, t);
      steps := RestThen(AdvanceApply(s, t, true), t, rest);
      steps := Before(s, Advance(t, true), steps);
    }
  }

  // ----- a waiter that is cancelled before it is linked -----

  /** A fresh waiter that was cancelled while the queue was emptied under everybody. */
  predicate Stray(s: State, t: nat, w: nat) {
    && s.lock == None && t < |s.threads| && s.threads[t].Idle? && s.core.queue == [] && w < |s.waiters|
    && var x := s.waiters[w];
       x.cancelled && !x.entered && !x.linked && !x.acquired && !x.inline && !x.rushed && !x.suspended
  }

  /** After its await_suspend: linked and left behind for want of permits, or granted. */
  function Linked(s: State, w: nat): State {
    var x := At(s, w).(entered := true, ticket := s.tickets);
    var s1 := s.(tickets := s.tickets + 1);
    if s.core.permits < x.need
    then SetWaiter(s1.(core := Core(s.core.permits, true, [w])), w, x.(linked := true, rushed := true))
    else SetWaiter(s1.(core := Core(s.core.permits - x.need, false, [])), w, x.(acquired := true, inline := true))
  }

  /** The state in which thread t, at pc, has linked w and not looked at the permits yet. */
  function Linking1(s: State, t: nat, w: nat, lock: Option<nat>, pc: Pc): State {
    var x := At(s, w).(entered := true, linked := true, ticket := s.tickets);
    SetPc(SetWaiter(s.(core := LinkTail(s.core, w), tickets := s.tickets + 1, lock := lock), w, x), t, pc)
  }

  lemma LinkStep(s: State, t: nat, w: nat, rest: seq<Step>) returns (steps: seq<Step>)
    requires Stray(s, t, w) && Legal(Linking1(s, t, w, Some(t), GrantLoad(Some(w), [])), rest)
    ensures Legal(s, steps)
    ensures Exec(s, steps) == Exec(Linking1(s, t, w, Some(t), GrantLoad(Some(w), [])), rest)
  {
    var s1 := Apply(s, LockToEnqueue(t, w));
    assert s1.threads[t] == Linking(w);
    assert AdvanceApply(s1, t, true) == Linking1(s, t, w, Some(t), GrantLoad(Some(w), []));
    steps := Before(s1, Advance(t, true), rest);
    steps := Before(s, LockToEnqueue(t, w), steps);
  }

  lemma ShortRun(s: State, t: nat, w: nat) returns (steps: seq<Step>)
    requires Stray(s, t, w) && s.core.permits < s.waiters[w].need
    ensures Legal(s, steps) && Exec(s, steps) == Linked(s, w)
  {
    var s2 := Linking1(s, t, w, Some(t), GrantLoad(Some(w), []));
    var s3 := Linking1(s, t, w, Some(t), Unlocking(Some(w), []));
    assert AdvanceApply(s2, t, true) == s3;
    var e := AdvanceApply(s3, t, true);
    assert e == Linking1(s, t, w, None, Waking(Some(w), []));
    var e1 := AdvanceApply(e, t, true);
    assert e1 == Linking1(s, t, w, None, SuspendTail(w));
    assert AdvanceApply(e1, t, true) == Linked(s, w);
    steps := Before(e1, Advance(t, true), []);
    steps := Before(e, Advance(t, true), steps);
    steps := Before(s3, Advance(t, true), steps);
    steps := Before(s2, Advance(t, true), steps);
    steps := LinkStep(s, t, w, steps);
  }

  /** The granted outcome, with thread t still at pc. */
  function Granted1(s: State, t: nat, w: nat, lock: Option<nat>, pc: Pc): State {
    SetPc(Linked(s, w).(lock := lock), t, pc)
  }

  lemma GrantedTail(s: State, t: nat, w: nat) returns (steps: seq<Step>)
    requires Stray(s, t, w) && s.core.permits >= s.waiters[w].need
    ensures Legal(Granted1(s, t, w, Some(t), GrantLoad(Some(w), [])), steps)
    ensures Exec(Granted1(s, t, w, Some(t), GrantLoad(Some(w), [])), steps) == Linked(s, w)
  {
    var s5 := Granted1(s, t, w, Some(t), GrantLoad(Some(w), []));
    var s6 := AdvanceApply(s5, t, true);
    assert s6 == Granted1(s, t, w, Some(t), Unlocking(Some(w), []));
    var s7 := AdvanceApply(s6, t, true);
    assert s7 == Granted1(s, t, w, None, Waking(Some(w), []));
    var s8 := AdvanceApply(s7, t, true);
    assert s8 == Granted1(s, t, w, None, SuspendTail(w));
    assert AdvanceApply(s8, t, true) == Linked(s, w);
    steps := Before(s8, Advance(t, true), []);
    steps := Before(s7, Advance(t, true), steps);
    steps := Before(s6, Advance(t, true), steps);
    steps := Before(s5, Advance(t, true), steps);
  }

  lemma GrantedRun(s: State, t: nat, w: nat) returns (steps: seq<Step>)
    requires Stray(s, t, w) && s.core.permits >= s.waiters[w].need
    ensures Legal(s, steps) && Exec(s, steps) == Linked(s, w)
  {
    var s2 := Linking1(s, t, w, Some(t), GrantLoad(Some(w), []));
    var s3 := AdvanceApply(s2, t, true);
    assert s3 == Linking1(s, t, w, Some(t), GrantCas(Some(w), [], s.core.permits));
    var s4 := AdvanceApply(s3, t, true);
    assert s4 == Linking1(AddPermits(s, 0 - s.waiters[w].need), t, w, Some(t), GrantPop(Some(w), []));
    assert AdvanceApply(s4, t, true) == Granted1(s, t, w, Some(t), GrantLoad(Some(w), []));
    steps := GrantedTail(s, t, w);
    steps := Before(s4, Advance(t, true), steps);
    steps := Before(s3, Advance(t, true), steps);
    steps := Before(s2, Advance(t, true), steps);
    steps := LinkStep(s, t, w, steps);
  }

  lemma LinkingRun(s: State, t: nat, w: nat) returns (steps: seq<Step>)
    requires Stray(s, t, w)
    ensures Legal(s, steps) && Exec(s, steps) == Linked(s, w)
  {
    if s.core.permits < s.waiters[w].need {
      steps := ShortRun(s, t, w);
    } else {
      steps := GrantedRun(s, t, w);
    }
  }

  // ----- the order is exact -----
}
