/** No permit stays behind: from every reachable state of the semaphore there is a run on
    which every waiter resumes or is dropped, every permit object is destroyed, and all
    permits are free again. */
module SemaphoreReturns {
  import opened Options
  import opened SemaphoreCalls
  import opened SemaphoreLedger
  import opened SemaphoreProgress
  import opened SemaphoreProtocol
  import opened SemaphoreSafety
  import opened SemaphoreWindows
  import opened Sums

  // ----- what a destructor leaves behind -----

  predicate Quit(x: Waiter) {
    !x.linked && (x.acquired ==> x.settled)
  }

  predicate DroppingBy(s: State, t: nat, w: nat) {
    t < |s.threads| && s.threads[t] == Dropping(w)
  }

  /** A waiter whose destructor has begun has left the queue and has given back what it was
      granted, or a thread is about to see to that. */
  ghost predicate DropOk(s: State, w: nat) {
    w < |s.waiters| && s.waiters[w].dropped && !Quit(s.waiters[w]) ==> exists t: nat :: DroppingBy(s, t, w)
  }

  /** What an access of thread t may do to waiter w, if t is not in w's destructor. */
  ghost predicate Unaffected(s: State, s': State, t: nat, w: nat) {
    && w < |s.waiters| == |s'.waiters| && |s'.threads| == |s.threads|
    && (forall u :: 0 <= u < |s.threads| && u != t ==> s'.threads[u] == s.threads[u])
    && s'.waiters[w].dropped == s.waiters[w].dropped
    && (s.waiters[w].dropped && Quit(s.waiters[w]) ==> Quit(s'.waiters[w]))
  }

  lemma PlainUnaffected(s: State, t: nat, ok: bool, w: nat)
    requires t < |s.threads| && w < |s.waiters| && (IsPlain(s.threads[t]) || s.threads[t].Idle?)
    ensures Unaffected(s, AdvanceApply(s, t, ok), t, w)
  {
    if !s.threads[t].Idle? {
      PlainMoves(s, t, ok);
    }
  }

  lemma PopUnaffected(s: State, t: nat, self: Option<nat>, buf: seq<nat>, w: nat)
    requires t < |s.threads| && w < |s.waiters| && s.threads[t] == GrantPop(self, buf)
    requires s.core.queue != [] ==> At(s, s.core.queue[0]).linked
    ensures Unaffected(s, GrantPopApply(s, t, self, buf), t, w)
  {
  }

  lemma WakeUnaffected(s: State, t: nat, self: Option<nat>, buf: seq<nat>, w: nat)
    requires t < |s.threads| && w < |s.waiters| && s.threads[t] == Waking(self, buf)
    ensures Unaffected(s, WakeApply(s, t, self, buf), t, w)
  {
  }

  lemma LinkUnaffected(s: State, t: nat, v: nat, w: nat)
    requires t < |s.threads| && w < |s.waiters| && (v == w ==> !s.waiters[w].dropped)
    ensures Unaffected(s, LinkApply(s, t, v), t, w)
  {
  }

  lemma SuspendUnaffected(s: State, t: nat, v: nat, w: nat)
    requires t < |s.threads| && w < |s.waiters|
    ensures Unaffected(s, SuspendApply(s, t, v), t, w)
  {
  }

  lemma CancelUnaffected(s: State, t: nat, v: nat, w: nat)
    requires t < |s.threads| && w < |s.waiters|
    ensures Unaffected(s, CancelApply(s, t, v), t, w)
  {
  }

  lemma DropUnaffected(s: State, t: nat, v: nat, w: nat)
    requires t < |s.threads| && w < |s.waiters|
    ensures Unaffected(s, DropApply(s, t, v), t, w)
  {
  }

  lemma AdvanceUnaffected(s: State, t: nat, ok: bool, w: nat)
    requires Basic(s) && t < |s.threads| && w < |s.waiters|
    ensures Unaffected(s, AdvanceApply(s, t, ok), t, w)
  {
    assert PcOk(s, s.threads[t]) && WaiterOk(s.waiters[w]);
    match s.threads[t]
    case GrantPop(self, buf) =>
      if s.core.queue != [] {
        assert s.core.queue[0] in s.core.queue;
      }
      PopUnaffected(s, t, self, buf, w);
    case Waking(self, buf) => WakeUnaffected(s, t, self, buf, w);
    case Linking(v) => LinkUnaffected(s, t, v, w);
    case SuspendTail(v) => SuspendUnaffected(s, t, v, w);
    case Cancelling(v) => CancelUnaffected(s, t, v, w);
    case Dropping(v) => DropUnaffected(s, t, v, w);
    case _ => PlainUnaffected(s, t, ok, w);
  }

  lemma DropQuits(s: State, t: nat, w: nat)
    requires t < |s.threads| && w < |s.waiters| && WaiterOk(s.waiters[w])
    ensures w < |DropApply(s, t, w).waiters| && Quit(DropApply(s, t, w).waiters[w])
  {
  }

  lemma AdvanceDrops(s: State, t: nat, ok: bool, w: nat)
    requires Basic(s) && DropOk(s, w) && t < |s.threads|
    ensures DropOk(AdvanceApply(s, t, ok), w)
  {
    var s' := AdvanceApply(s, t, ok);
    if w < |s.waiters| {
      AdvanceUnaffected(s, t, ok, w);
      if s.threads[t] == Dropping(w) {
        assert WaiterOk(s.waiters[w]);
        DropQuits(s, t, w);
      } else if s'.waiters[w].dropped && !Quit(s'.waiters[w]) {
        var u: nat :| DroppingBy(s, u, w);
        assert DroppingBy(s', u, w);
      }
    } else {
      SameNumber(s, t, ok);
    }
  }

  lemma SameNumber(s: State, t: nat, ok: bool)
    ensures |AdvanceApply(s, t, ok).waiters| == |s.waiters|
  {
  }

  lemma CallDrops(s: State, step: Step, w: nat)
    requires DropOk(s, w) && Enabled(s, step) && !step.Advance?
    ensures DropOk(Apply(s, step), w)
  {
    var s' := Apply(s, step);
    if step.LockToDrop? && step.w == w {
      assert DroppingBy(s', step.t, w);
    } else if w < |s'.waiters| && s'.waiters[w].dropped && !Quit(s'.waiters[w]) {
      var u: nat :| DroppingBy(s, u, w);
      assert DroppingBy(s', u, w);
    }
  }

  // ----- the invariants that the way back needs -----

  ghost predicate Good(s: State) {
    Basic(s) && Balanced(s) && forall w: nat :: DropOk(s, w) && Attended(s, w)
  }

  lemma GoodStep(s: State, step: Step)
    requires Good(s) && Enabled(s, step) && CancelInOrder(s, step)
    ensures Good(Apply(s, step))
  {
    BasicStep(s, step);
    BalancedStep(s, step);
    forall w: nat
      ensures DropOk(Apply(s, step), w) && Attended(Apply(s, step), w)
    {
      AttendedStep(s, step, w);
      if step.Advance? {
        AdvanceDrops(s, step.t, step.ok, w);
      } else {
        CallDrops(s, step, w);
      }
    }
  }

  lemma {:induction false} GoodRun(s: State, steps: seq<Step>)
    requires Good(s) && Legal(s, steps)
    ensures Good(Exec(s, steps))
    decreases |steps|
  {
    if steps == [] {
    } else {
      GoodStep(s, steps[0]);
      GoodRun(Apply(s, steps[0]), steps[1..]);
    }
  }

  lemma GoodStart(s: State)
    requires Init(s)
    ensures Good(s)
  {
    InitHolds(s);
  }

  /** Steps by which nothing new is asked for, released or forgotten. */
  predicate GivesBack(step: Step) {
    step.Advance? || step.NewThread? || step.Resume? || step.LockToDrop? || step.PermitDrop?
  }

  ghost predicate AllGiveBack(steps: seq<Step>) {
    forall i :: 0 <= i < |steps| ==> GivesBack(steps[i])
  }

  /** The books stay, and what has resumed or is dropped stays so. */
  ghost predicate Kept(s: State, s': State) {
    && SameBooks(s, s') && |s'.waiters| == |s.waiters|
    && forall w :: 0 <= w < |s.waiters| ==>
         && (s.waiters[w].settled ==> s'.waiters[w].settled) && (s.waiters[w].dropped ==> s'.waiters[w].dropped)
  }

  lemma PlainKept(s: State, t: nat, ok: bool)
    requires t < |s.threads| && (IsPlain(s.threads[t]) || s.threads[t].Idle?)
    ensures Kept(s, AdvanceApply(s, t, ok))
  {
  }

  lemma PopKept(s: State, t: nat, self: Option<nat>, buf: seq<nat>)
    ensures Kept(s, GrantPopApply(s, t, self, buf))
  {
  }

  lemma WakeKept(s: State, t: nat, self: Option<nat>, buf: seq<nat>)
    ensures Kept(s, WakeApply(s, t, self, buf))
  {
  }

  lemma LinkKept(s: State, t: nat, w: nat)
    ensures Kept(s, LinkApply(s, t, w)) && Kept(s, SuspendApply(s, t, w))
  {
  }

  lemma RemovalKept(s: State, t: nat, w: nat)
    ensures Kept(s, CancelApply(s, t, w)) && Kept(s, DropApply(s, t, w))
  {
  }

  lemma AdvanceKept(s: State, t: nat, ok: bool)
    requires t < |s.threads|
    ensures Kept(s, AdvanceApply(s, t, ok))
  {
    match s.threads[t]
    case GrantPop(self, buf) => PopKept(s, t, self, buf);
    case Waking(self, buf) => WakeKept(s, t, self, buf);
    case Linking(w) => LinkKept(s, t, w);
    case SuspendTail(w) => LinkKept(s, t, w);
    case Cancelling(w) => RemovalKept(s, t, w);
    case Dropping(w) => RemovalKept(s, t, w);
    case _ => PlainKept(s, t, ok);
  }

  lemma StepKept(s: State, step: Step)
    requires Enabled(s, step) && GivesBack(step)
    ensures Kept(s, Apply(s, step))
  {
    if step.Advance? {
      AdvanceKept(s, step.t, step.ok);
    }
  }

  lemma {:induction false} RunKept(s: State, steps: seq<Step>)
    requires Legal(s, steps) && AllGiveBack(steps)
    ensures Kept(s, Exec(s, steps))
    decreases |steps|
  {
    if steps == [] {
    } else {
      StepKept(s, steps[0]);
      RunKept(Apply(s, steps[0]), steps[1..]);
    }
  }

  // ----- every waiter resumes or goes -----

  function Open(x: Waiter): nat {
    if x.settled || x.dropped then 0 else 1
  }

  function OpenList(ws: seq<Waiter>): seq<int> {
    seq(|ws|, w requires 0 <= w < |ws| => Open(ws[w]))
  }

  lemma FewerOpen(s: State, s': State, w: nat)
    requires Kept(s, s') && w < |s.waiters| && Open(s.waiters[w]) == 1 && Open(s'.waiters[w]) == 0
    ensures 0 <= Sum(OpenList(s'.waiters)) < Sum(OpenList(s.waiters))
  {
    SumNonNegative(OpenList(s'.waiters));
    SumBelow(OpenList(s'.waiters), OpenList(s.waiters), w);
  }

  /** Queued, or granted and not resumed. */
  predicate Needy(x: Waiter) {
    !Quit(x)
  }

  /** With nobody inside the semaphore, a waiter that is queued or due its permits is open,
      and can resume at once or be dropped. */
  lemma NeedyCan(s: State, w: nat)
    requires Good(s) && AllIdle(s) && w < |s.waiters| && Needy(s.waiters[w])
    ensures Open(s.waiters[w]) == 1
    ensures if s.waiters[w].inline then Enabled(s, Resume(w))
            else |s.threads| > 0 ==> Enabled(s, LockToDrop(0, w))
  {
    assert DropOk(s, w) && Attended(s, w) && WaiterOk(s.waiters[w]);
    NobodyActs(s, w);
  }

  lemma NobodyActs(s: State, w: nat)
    requires AllIdle(s)
    ensures forall t: nat :: !DroppingBy(s, t, w) && !Inside(s, t, w)
  {
  }

  /** One waiter less to see to. */
  lemma SeesTo(s: State, w: nat) returns (more: seq<Step>)
    requires Good(s) && AllIdle(s) && |s.threads| > 0 && w < |s.waiters| && Needy(s.waiters[w])
    ensures Legal(s, more) && AllGiveBack(more)
    ensures var f := Exec(s, more);
      && Good(f) && AllIdle(f) && |f.threads| == |s.threads| && Kept(s, f)
      && Sum(OpenList(f.waiters)) < Sum(OpenList(s.waiters))
  {
    NeedyCan(s, w);
    if s.waiters[w].inline {
      more := Before(s, Resume(w), []);
    } else {
      var s1 := Apply(s, LockToDrop(0, w));
      GoodStep(s, LockToDrop(0, w));
      more := RunsOut(s1, 0);
      RunKept(s1, more);
      more := Before(s, LockToDrop(0, w), more);
    }
    GoodRun(s, more);
    RunKept(s, more);
    FewerOpen(s, Exec(s, more), w);
  }

  lemma {:induction false} AllSeenTo(s: State) returns (more: seq<Step>)
    requires Good(s) && AllIdle(s) && |s.threads| > 0
    ensures Legal(s, more) && AllGiveBack(more)
    ensures var f := Exec(s, more);
      && Good(f) && AllIdle(f) && |f.threads| == |s.threads| && Kept(s, f)
      && forall w :: 0 <= w < |f.waiters| ==> Quit(f.waiters[w])
    decreases Sum(OpenList(s.waiters))
  {
    if w :| 0 <= w < |s.waiters| && Needy(s.waiters[w]) {
      var first := SeesTo(s, w);
      SumNonNegative(OpenList(s.waiters));
      var rest := AllSeenTo(Exec(s, first));
      Concat(s, first, rest);
      more := first + rest;
    } else {
      more := [];
    }
  }

  // ----- every permit object is destroyed -----

  /** The state after the permit objects from i on were destroyed, with nobody queued. */
  lemma {:induction false} AllDropped(s: State, i: nat) returns (more: seq<Step>)
    requires AllIdle(s) && |s.threads| > 0 && !s.core.hasWaiters && i <= |s.held|
    requires forall p :: 0 <= p < i ==> s.held[p] == 0
    ensures Legal(s, more) && AllGiveBack(more)
    ensures var f := Exec(s, more);
      && AllIdle(f) && f.waiters == s.waiters && f.core.queue == s.core.queue
      && |f.held| == |s.held| && forall p :: 0 <= p < |f.held| ==> f.held[p] == 0
    decreases |s.held| - i
  {
    if i == |s.held| {
      more := [];
    } else if s.held[i] == 0 {
      more := AllDropped(s, i + 1);
    } else {
      var s1 := Apply(s, PermitDrop(0, i));
      var s2 := Apply(s1, Advance(0, true));
      assert s2.threads == s.threads;
      more := AllDropped(s2, i + 1);
      more := Before(s1, Advance(0, true), more);
      more := Before(s, PermitDrop(0, i), more);
    }
  }

  lemma NothingDue(s: State)
    requires Good(s) && AllIdle(s) && forall w :: 0 <= w < |s.waiters| ==> Quit(s.waiters[w])
    ensures s.core.queue == [] && Sum(DueList(s.waiters)) == 0 && InHand(s) == 0
  {
    SumZero(DueList(s.waiters));
    SomeoneQueued(s.core.queue);
  }

  lemma SomeoneQueued(q: seq<nat>)
    ensures q == [] || exists w: nat :: w in q
  {
    if q != [] {
      assert q[0] in q;
    }
  }

  lemma Emptied(s: State, f: State)
    requires Good(f) && AllIdle(f) && Kept(s, f)
    requires forall w :: 0 <= w < |f.waiters| ==> Quit(f.waiters[w])
    requires forall p :: 0 <= p < |f.held| ==> f.held[p] == 0
    ensures f.core.queue == [] && f.core.permits == s.initial + s.released - s.forgotten
  {
    NothingDue(f);
    SumZero(f.held);
  }

  lemma ComeBackFrom(s: State) returns (more: seq<Step>)
    requires Good(s) && AllIdle(s) && |s.threads| > 0
    ensures Legal(s, more) && AllGiveBack(more)
    ensures var f := Exec(s, more);
      AllIdle(f) && f.core.queue == [] && f.core.permits == s.initial + s.released - s.forgotten
  {
    var first := AllSeenTo(s);
    var e := Exec(s, first);
    NothingDue(e);
    var rest := AllDropped(e, 0);
    GoodRun(e, rest);
    Concat(s, first, rest);
    more := first + rest;
    RunKept(s, more);
    Emptied(s, Exec(s, more));
  }

  /** First whoever is inside the semaphore gets out. */
  lemma GetOut(s: State) returns (more: seq<Step>)
    requires Good(s) && |s.threads| > 0
    ensures Legal(s, more) && AllGiveBack(more)
    ensures var f := Exec(s, more); Good(f) && AllIdle(f) && |f.threads| > 0 && SameBooks(s, f)
  {
    more := AllRunOut(s);
    GoodRun(s, more);
    RunKept(s, more);
    ThreadsStay(s, more);
  }

  lemma BackFrom(s: State) returns (more: seq<Step>)
    requires Good(s) && |s.threads| > 0
    ensures Legal(s, more) && AllGiveBack(more)
    ensures var f := Exec(s, more);
      AllIdle(f) && f.core.queue == [] && f.core.permits == s.initial + s.released - s.forgotten
  {
    var first := GetOut(s);
    var rest := ComeBackFrom(Exec(s, first));
    Concat(s, first, rest);
    more := first + rest;
  }

  /** However the semaphore was used, what is not forgotten can come back: there is a run on
      which no permit is asked for, released from outside or forgotten, and after which
      nobody is inside, nobody waits, and all permits are free. */
  lemma PermitsComeBack(s: State, steps: seq<Step>) returns (more: seq<Step>)
    requires Init(s) && Legal(s, steps)
    ensures Legal(Exec(s, steps), more) && AllGiveBack(more)
    ensures var e := Exec(s, steps); var f := Exec(e, more);
      AllIdle(f) && f.core.queue == [] && f.core.permits == e.initial + e.released - e.forgotten
  {
    GoodStart(s);
    GoodRun(s, steps);
    var e := Exec(s, steps);
    GoodStep(e, NewThread);
    more := BackFrom(Apply(e, NewThread));
    more := Before(e, NewThread, more);
  }

  lemma {:induction false} ThreadsStay(s: State, steps: seq<Step>)
    requires Legal(s, steps) && Advances(steps)
    ensures |Exec(s, steps).threads| == |s.threads|
    decreases |steps|
  {
    if steps == [] {
    } else {
      ThreadStays(s, steps[0].t, steps[0].ok);
      ThreadsStay(Apply(s, steps[0]), steps[1..]);
    }
  }

  lemma ThreadStays(s: State, t: nat, ok: bool)
    ensures |AdvanceApply(s, t, ok).threads| == |s.threads|
  {
  }
}
