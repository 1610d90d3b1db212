/** First come, first served; and no waiter is left behind while permits suffice. */
module SemaphoreFairness {
  import opened Options
  import opened Queues
  import opened SemaphoreCore
  import opened SemaphoreProtocol
  import opened SemaphoreSafety

  // ----- FIFO -----

  ghost predicate Tickets(s: State) {
    && (forall i, j :: 0 <= i < j < |s.core.queue| ==>
          At(s, s.core.queue[i]).ticket < At(s, s.core.queue[j]).ticket)
    && (forall w :: 0 <= w < |s.waiters| && s.waiters[w].entered ==> s.waiters[w].ticket < s.tickets)
  }

  /** A waiter that entered before a granted one is no longer waiting. */
  ghost predicate InOrder(s: State) {
    forall v, w | 0 <= v < |s.waiters| && 0 <= w < |s.waiters| ::
      s.waiters[v].entered && s.waiters[w].acquired && s.waiters[v].ticket < s.waiters[w].ticket ==>
        !s.waiters[v].linked
  }

  ghost predicate Fifo(s: State) {
    Tickets(s) && InOrder(s)
  }

  lemma LinkFifo(s: State, t: nat, w: nat)
    requires InRange(s) && WaitersOk(s) && Fifo(s) && w < |s.waiters| && t < |s.threads| && !s.waiters[w].entered
    requires forall v :: 0 <= v < |s.waiters| ==> (s.waiters[v].linked <==> v in s.core.queue)
    ensures Fifo(LinkApply(s, t, w))
  {
    assert WaiterOk(s.waiters[w]);
    assert forall i :: 0 <= i < |s.core.queue| ==> s.core.queue[i] in s.core.queue;
  }

  lemma HeadIsFirst(s: State, v: nat)
    requires Tickets(s) && v in s.core.queue
    ensures At(s, s.core.queue[0]).ticket <= At(s, v).ticket
  {
  }

  lemma PopFifo(s: State, t: nat, self: Option<nat>, buf: seq<nat>)
    requires InRange(s) && WaitersOk(s) && QueueOk(s) && Fifo(s) && t < |s.threads| && s.core.queue != []
    ensures Fifo(GrantPopApply(s, t, self, buf))
  {
    var s' := GrantPopApply(s, t, self, buf);
    var h := s.core.queue[0];
    assert h in s.core.queue && WaiterOk(s.waiters[h]);
    forall v | 0 <= v < |s.waiters| && s.waiters[v].linked
      ensures s.waiters[h].ticket <= s.waiters[v].ticket
    {
      HeadIsFirst(s, v);
    }
    PopOrder(s, s', h);
    PopTickets(s, t, self, buf);
  }

  lemma PopTickets(s: State, t: nat, self: Option<nat>, buf: seq<nat>)
    requires Tickets(s) && s.core.queue != []
    ensures Tickets(GrantPopApply(s, t, self, buf))
  {
    RemoveTickets(s, GrantPopApply(s, t, self, buf), 0);
  }

  lemma PopOrder(s: State, s': State, h: nat)
    requires InOrder(s) && h < |s.waiters| && |s'.waiters| == |s.waiters|
    requires forall v :: 0 <= v < |s.waiters| && s.waiters[v].linked ==> s.waiters[h].ticket <= s.waiters[v].ticket
    requires forall v :: 0 <= v < |s.waiters| && v != h ==> s'.waiters[v] == s.waiters[v]
    requires !s'.waiters[h].linked && s'.waiters[h].ticket == s.waiters[h].ticket
    ensures InOrder(s')
  {
  }

  lemma RemoveFifo(s: State, w: nat, x: Waiter)
    requires WaitersOk(s) && Fifo(s) && w < |s.waiters| && w in s.core.queue
    requires x.entered == s.waiters[w].entered && x.ticket == s.waiters[w].ticket && !x.acquired && !x.linked
    ensures Fifo(SetWaiter(s.(core := Remove(s.core, w)), w, x))
  {
    var k := IndexOf(s.core.queue, w);
    var s' := SetWaiter(s.(core := Remove(s.core, w)), w, x);
    assert s'.core.queue == Without(s.core.queue, k);
    RemoveTickets(s, s', k);
    assert WaiterOk(s.waiters[w]);
  }

  lemma RemoveTickets(s: State, s': State, k: nat)
    requires Tickets(s) && k < |s.core.queue| && s'.core.queue == Without(s.core.queue, k)
    requires |s'.waiters| == |s.waiters| && s'.tickets == s.tickets
    requires forall v :: 0 <= v < |s.waiters| ==>
      s'.waiters[v].ticket == s.waiters[v].ticket && s'.waiters[v].entered == s.waiters[v].entered
    ensures Tickets(s')
  {
    var q := Without(s.core.queue, k);
    assert forall i :: 0 <= i < |q| ==> q[i] == s.core.queue[if i < k then i else i + 1];
    assert forall v: nat :: At(s', v).ticket == At(s, v).ticket;
  }

  lemma SameFifo(s: State, s': State)
    requires Fifo(s) && s'.core.queue == s.core.queue && s'.tickets == s.tickets && |s'.waiters| == |s.waiters|
    requires forall w :: 0 <= w < |s.waiters| ==>
      var x, y := s.waiters[w], s'.waiters[w];
      y.entered == x.entered && y.ticket == x.ticket && y.acquired == x.acquired && y.linked == x.linked
    ensures Fifo(s')
  {
  }

  /** Waiter w at its removal: linked exactly if it is in the queue, else acquired or
      cancelled already. */
  ghost predicate Removable(s: State, w: nat) {
    && w < |s.waiters| && (s.waiters[w].linked <==> w in s.core.queue)
    && (s.waiters[w].linked ==> !s.waiters[w].acquired && !s.waiters[w].cancelled)
    && (s.waiters[w].linked || s.waiters[w].acquired || s.waiters[w].cancelled)
  }

  lemma CancelFifo(s: State, t: nat, w: nat)
    requires WaitersOk(s) && Fifo(s) && t < |s.threads| && Removable(s, w)
    ensures Fifo(CancelApply(s, t, w))
  {
    if s.waiters[w].linked {
      RemoveFifo(s, w, CancelApply(s, t, w).waiters[w]);
    } else {
      SameFifo(s, CancelApply(s, t, w));
    }
  }

  lemma DropFifo(s: State, t: nat, w: nat)
    requires WaitersOk(s) && Fifo(s) && t < |s.threads| && Removable(s, w)
    ensures Fifo(DropApply(s, t, w))
  {
    if s.waiters[w].linked {
      RemoveFifo(s, w, DropApply(s, t, w).waiters[w]);
    } else {
      SameFifo(s, DropApply(s, t, w));
    }
  }

  lemma IsRemovable(s: State, t: nat, w: nat)
    requires Basic(s) && t < |s.threads| && (s.threads[t] == Cancelling(w) || s.threads[t] == Dropping(w))
    ensures Removable(s, w)
  {
    assert PcOk(s, s.threads[t]) && PcInRange(s.threads[t], |s.waiters|);
    assert WaiterOk(s.waiters[w]);
  }

  lemma MarkFifo(s: State, t: nat, ok: bool)
    requires Fifo(s) && t < |s.threads| && (s.threads[t].Waking? || s.threads[t].SuspendTail?)
    ensures Fifo(AdvanceApply(s, t, ok))
  {
    SameFifo(s, AdvanceApply(s, t, ok));
  }

  lemma AdvanceFifo(s: State, t: nat, ok: bool)
    requires Basic(s) && Fifo(s) && Enabled(s, Advance(t, ok))
    ensures Fifo(AdvanceApply(s, t, ok))
  {
    assert PcOk(s, s.threads[t]) && PcInRange(s.threads[t], |s.waiters|);
    match s.threads[t]
    case Linking(w) => LinkFifo(s, t, w);
    case GrantPop(self, buf) => PopFifo(s, t, self, buf);
    case Cancelling(w) =>
      IsRemovable(s, t, w);
      CancelFifo(s, t, w);
    case Dropping(w) =>
      IsRemovable(s, t, w);
      DropFifo(s, t, w);
    case Waking(self, buf) => MarkFifo(s, t, ok);
    case SuspendTail(w) => MarkFifo(s, t, ok);
    case _ =>
      PlainMoves(s, t, ok);
      SameFifo(s, AdvanceApply(s, t, ok));
  }

  lemma CallFifo(s: State, step: Step)
    requires InRange(s) && Fifo(s) && Enabled(s, step) && !step.Advance?
    ensures Fifo(Apply(s, step))
  {
    if step.NewWaiter? {
    } else {
      SameFifo(s, Apply(s, step));
    }
  }

  lemma {:induction false} FifoRun(s: State, steps: seq<Step>)
    requires Basic(s) && Fifo(s) && Legal(s, steps)
    ensures Basic(Exec(s, steps)) && Fifo(Exec(s, steps))
    decreases |steps|
  {
    if steps == [] {
    } else {
      BasicStep(s, steps[0]);
      if steps[0].Advance? {
        AdvanceFifo(s, steps[0].t, steps[0].ok);
      } else {
        CallFifo(s, steps[0]);
      }
      FifoRun(Apply(s, steps[0]), steps[1..]);
    }
  }

  /** If v entered the queue before w and w has been granted, then v was granted or
      removed already. */
  lemma FirstComeFirstServed(s: State, steps: seq<Step>, v: nat, w: nat)
    requires Init(s) && Legal(s, steps)
    requires v < |Exec(s, steps).waiters| && w < |Exec(s, steps).waiters|
    requires var e := Exec(s, steps);
      e.waiters[v].entered && e.waiters[w].acquired && e.waiters[v].ticket < e.waiters[w].ticket
    ensures var x := Exec(s, steps).waiters[v];
      !x.linked && (x.acquired || x.cancelled || x.dropped)
  {
    FifoRun(s, steps);
    assert WaiterOk(Exec(s, steps).waiters[v]);
  }

  /** No barging: a fast-path acquire of a positive number of permits succeeds only when
      nobody is queued. */
  lemma NoBarging(s: State, steps: seq<Step>, t: nat)
    requires Init(s) && Legal(s, steps)
    requires var e := Exec(s, steps);
      && t < |e.threads| && e.threads[t].TryCas?
      && |AdvanceApply(e, t, true).held| > |e.held|
    ensures var e := Exec(s, steps);
      && e.core.queue == [] && (forall w :: 0 <= w < |e.waiters| ==> !e.waiters[w].linked)
      && e.threads[t].n > 0
      && AdvanceApply(e, t, true).core.permits == e.core.permits - e.threads[t].n >= 0
  {
    FifoRun(s, steps);
    var e := Exec(s, steps);
    assert PcOk(e, e.threads[t]);
  }

  // ----- no lost wake-up -----

  /** A releaser between its fetch_add and its grant pass. */
  predicate Releasing(pc: Pc) {
    pc.FlagTest? || pc.GrantEntry?
  }

  /** The lock holder will read the permit counter again before it unlocks. */
  predicate WillRecheck(pc: Pc) {
    pc.Linking? || pc.GrantLoad? || pc.GrantCas? || pc.GrantPop?
  }

  ghost predicate SomeReleasing(s: State) {
    exists t :: 0 <= t < |s.threads| && Releasing(s.threads[t])
  }

  ghost predicate HeadShort(s: State) {
    s.core.queue == [] || s.core.permits < HeadNeed(s)
  }

  /** If the head could be granted, somebody is on the way to grant it. */
  ghost predicate Covered(s: State) {
    HeadShort(s) || SomeReleasing(s) || (s.lock.Some? && WillRecheck(PcOf(s, s.lock.value)))
  }

  /** The queue lock is free and no release is under way. */
  ghost predicate Quiet(s: State) {
    s.lock == None && !SomeReleasing(s)
  }

  /** The one way in which the code strands a waiter: an ungranted head is removed (by
      cancellation or by its destructor), its successor would fit the free permits, and
      no release is under way. */
  ghost predicate Uncovers(s: State, step: Step) {
    && step.Advance? && step.t < |s.threads|
    && var pc := s.threads[step.t];
       && (pc.Cancelling? || pc.Dropping?)
       && At(s, pc.w).linked
       && |s.core.queue| >= 2 && s.core.queue[0] == pc.w
       && At(s, s.core.queue[1]).need <= s.core.permits
       && !SomeReleasing(s)
  }

  lemma ReleasingStays(s: State, s': State, t: nat)
    requires SomeReleasing(s) && t < |s.threads| && |s'.threads| == |s.threads|
    requires forall u :: 0 <= u < |s.threads| && u != t ==> s'.threads[u] == s.threads[u]
    requires Releasing(s.threads[t]) ==> Releasing(s'.threads[t])
    ensures SomeReleasing(s')
  {
    var u :| 0 <= u < |s.threads| && Releasing(s.threads[u]);
    assert Releasing(s'.threads[u]);
  }

  lemma NeedsStay(s: State, s': State)
    requires |s'.waiters| == |s.waiters|
    requires forall v :: 0 <= v < |s.waiters| ==> s'.waiters[v].need == s.waiters[v].need
    ensures forall v: nat :: At(s', v).need == At(s, v).need
  {
  }

  /** Taking waiter k out of the queue with no release under way. */
  lemma TakenOut(s: State, s': State, t: nat, k: nat)
    requires HeadShort(s) && !SomeReleasing(s) && k < |s.core.queue| && t < |s.threads|
    requires |s'.threads| == |s.threads| && s'.threads == s.threads[t := s'.threads[t]] && !Releasing(s'.threads[t])
    requires s'.lock == Some(t) && !WillRecheck(s'.threads[t])
    requires s'.core.queue == Without(s.core.queue, k) && s'.core.permits == s.core.permits
    requires forall v: nat :: At(s', v).need == At(s, v).need
    ensures Covered(s') <==> !(k == 0 && |s.core.queue| >= 2 && At(s, s.core.queue[1]).need <= s.core.permits)
  {
    assert !SomeReleasing(s') by {
      if u :| 0 <= u < |s'.threads| && Releasing(s'.threads[u]) {
        assert Releasing(s.threads[u]);
      }
    }
  }

  /** A removal made by the lock holder leaves the queue covered exactly when it does not
      uncover. */
  lemma RemovalCovered(s: State, t: nat, ok: bool, w: nat)
    requires Basic(s) && Covered(s) && t < |s.threads|
    requires s.threads[t] == Cancelling(w) || s.threads[t] == Dropping(w)
    ensures Covered(AdvanceApply(s, t, ok)) <==> !Uncovers(s, Advance(t, ok))
  {
    var s' := AdvanceApply(s, t, ok);
    var pc := s.threads[t];
    assert PcOk(s, pc) && PcInRange(pc, |s.waiters|) && (Holds(pc) <==> s.lock == Some(t));
    assert WaiterOk(s.waiters[w]);
    RemovalCases(s, t, ok, w);
  }

  lemma RemovalCases(s: State, t: nat, ok: bool, w: nat)
    requires Covered(s) && t < |s.threads| && s.lock == Some(t) && w < |s.waiters|
    requires s.threads[t] == Cancelling(w) || s.threads[t] == Dropping(w)
    requires Distinct(s.core.queue) && (s.waiters[w].linked <==> w in s.core.queue)
    requires s.waiters[w].linked || s.waiters[w].acquired || s.waiters[w].cancelled
    requires s.waiters[w].linked ==> !s.waiters[w].acquired && !s.waiters[w].cancelled
    ensures Covered(AdvanceApply(s, t, ok)) <==> !Uncovers(s, Advance(t, ok))
  {
    var s' := AdvanceApply(s, t, ok);
    if SomeReleasing(s) {
      ReleasingStays(s, s', t);
    } else if s.waiters[w].linked {
      NeedsStay(s, s');
      var k := IndexOf(s.core.queue, w);
      assert k > 0 ==> s.core.queue[0] != s.core.queue[k];
      TakenOut(s, s', t, k);
    } else if s.threads[t] == Dropping(w) && !s.waiters[w].cancelled {
      assert WillRecheck(s'.threads[t]);
    } else {
      NeedsStay(s, s');
    }
  }

  lemma GrantPassCovered(s: State, t: nat, ok: bool)
    requires InRange(s) && Covered(s) && t < |s.threads| && s.lock == Some(t)
    requires var pc := s.threads[t]; pc.Linking? || pc.GrantLoad? || pc.GrantCas? || (pc.GrantPop? && s.core.queue != [])
    ensures Covered(AdvanceApply(s, t, ok))
  {
  }

  lemma ReleaseCovered(s: State, t: nat, ok: bool)
    requires Covered(s) && t < |s.threads| && Releasing(s.threads[t])
    requires s.core.hasWaiters <==> s.core.queue != []
    ensures Covered(AdvanceApply(s, t, ok))
  {
    var s' := AdvanceApply(s, t, ok);
    assert s.core.hasWaiters && s.threads[t].FlagTest? ==> Releasing(s'.threads[t]);
  }

  lemma AdvanceCovered(s: State, t: nat, ok: bool)
    requires Basic(s) && Covered(s) && Enabled(s, Advance(t, ok))
    requires !s.threads[t].Cancelling? && !s.threads[t].Dropping?
    ensures Covered(AdvanceApply(s, t, ok))
  {
    var pc := s.threads[t];
    assert PcOk(s, pc) && PcInRange(pc, |s.waiters|) && (Holds(pc) <==> s.lock == Some(t));
    if pc.Linking? || pc.GrantLoad? || pc.GrantCas? || pc.GrantPop? {
      GrantPassCovered(s, t, ok);
    } else if Releasing(pc) {
      ReleaseCovered(s, t, ok);
    } else {
      QuietCovered(s, t, ok);
    }
  }

  lemma QuietCovered(s: State, t: nat, ok: bool)
    requires Covered(s) && t < |s.threads| && LockOwned(s) && Enabled(s, Advance(t, ok))
    requires var pc := s.threads[t]; pc.TryLoad? || pc.TryCas? || pc.Unlocking? || pc.Waking? || pc.SuspendTail?
    ensures Covered(AdvanceApply(s, t, ok))
  {
    assert Holds(s.threads[t]) <==> s.lock == Some(t);
    NeedsStay(s, AdvanceApply(s, t, ok));
    StandsCovered(s, AdvanceApply(s, t, ok), t);
  }

  /** Steps that leave the queue and its needs alone and take no permits from a head. */
  lemma StandsCovered(s: State, s': State, t: nat)
    requires Covered(s) && t < |s.threads| && |s'.threads| == |s.threads|
    requires forall u :: 0 <= u < |s.threads| && u != t ==> s'.threads[u] == s.threads[u]
    requires !Releasing(s.threads[t])
    requires s'.core.queue == s.core.queue && HeadNeed(s') == HeadNeed(s)
    requires s'.core.permits <= s.core.permits
    requires s.lock.Some? && WillRecheck(PcOf(s, s.lock.value)) ==> s.lock != Some(t) && s'.lock == s.lock
    ensures Covered(s')
  {
    if SomeReleasing(s) {
      ReleasingStays(s, s', t);
    }
  }

  lemma CallCovered(s: State, step: Step)
    requires Basic(s) && Covered(s) && Enabled(s, step) && !step.Advance?
    ensures Covered(Apply(s, step))
  {
    var s' := Apply(s, step);
    match step
    case ReleaseAdd(t, n) => assert Releasing(s'.threads[t]);
    case PermitDrop(t, p) => assert Releasing(s'.threads[t]);
    case TryLock(t, n) => StandsCovered(s, s', t);
    case LockToEnqueue(t, w) => StandsCovered(s, s', t);
    case LockToCancel(t, w) => StandsCovered(s, s', t);
    case LockToDrop(t, w) => StandsCovered(s, s', t);
    case _ => IdleCovered(s, s');
  }

  lemma IdleCovered(s: State, s': State)
    requires Covered(s) && s'.core == s.core && s'.lock == s.lock && s.threads <= s'.threads
    requires HeadNeed(s') == HeadNeed(s) && (s.lock.Some? ==> s.lock.value < |s.threads|)
    ensures Covered(s')
  {
    if SomeReleasing(s) {
      var u :| 0 <= u < |s.threads| && Releasing(s.threads[u]);
      assert Releasing(s'.threads[u]);
    }
  }

  /** Exactly the uncovering removals break the guarantee; every other step of every
      operation keeps it. */
  lemma CoveredStep(s: State, step: Step)
    requires Basic(s) && Covered(s) && Enabled(s, step)
    ensures Covered(Apply(s, step)) <==> !Uncovers(s, step)
  {
    if step.Advance? {
      var pc := s.threads[step.t];
      if pc.Cancelling? || pc.Dropping? {
        RemovalCovered(s, step.t, step.ok, pc.w);
      } else {
        AdvanceCovered(s, step.t, step.ok);
      }
    } else {
      CallCovered(s, step);
    }
  }

  ghost predicate NeverUncovers(s: State, steps: seq<Step>)
    requires Legal(s, steps)
    decreases |steps|
  {
    steps == [] || (!Uncovers(s, steps[0]) && NeverUncovers(Apply(s, steps[0]), steps[1..]))
  }

  lemma {:induction false} CoveredRun(s: State, steps: seq<Step>)
    requires Basic(s) && Covered(s) && Legal(s, steps) && NeverUncovers(s, steps)
    ensures Covered(Exec(s, steps))
    decreases |steps|
  {
    if steps == [] {
    } else {
      BasicStep(s, steps[0]);
      CoveredStep(s, steps[0]);
      CoveredRun(Apply(s, steps[0]), steps[1..]);
    }
  }

  /** Whenever the queue lock is free and no release is between its fetch_add and its
      grant pass, either nobody waits or the head needs more than there is. */
  lemma NoLostWakeup(s: State, steps: seq<Step>)
    requires Init(s) && Legal(s, steps) && NeverUncovers(s, steps)
    ensures var e := Exec(s, steps);
      Quiet(e) ==> e.core.queue == [] || e.core.permits < HeadNeed(e)
  {
    CoveredRun(s, steps);
  }

  ghost predicate AllNeed(s: State, n: nat) {
    forall w :: 0 <= w < |s.waiters| ==> s.waiters[w].need == n
  }

  ghost predicate SameSize(steps: seq<Step>, n: nat) {
    forall i :: 0 <= i < |steps| && steps[i].NewWaiter? ==> steps[i].n == n
  }

  lemma AllNeedStep(s: State, step: Step, n: nat)
    requires AllNeed(s, n) && Enabled(s, step) && (step.NewWaiter? ==> step.n == n)
    ensures AllNeed(Apply(s, step), n)
  {
    if step.Advance? {
      NeedStays(s, step.t, step.ok);
    }
  }

  ghost predicate NeedsKept(s: State, s': State) {
    |s'.waiters| == |s.waiters| && forall w :: 0 <= w < |s.waiters| ==> s'.waiters[w].need == s.waiters[w].need
  }

  lemma MarkKeepsNeeds(s: State, s': State, w: nat, x: Waiter)
    requires s'.waiters == SetWaiter(s, w, x).waiters && x.need == At(s, w).need
    ensures NeedsKept(s, s')
  {
  }

  lemma PopKeepsNeeds(s: State, t: nat, self: Option<nat>, buf: seq<nat>)
    ensures NeedsKept(s, GrantPopApply(s, t, self, buf))
  {
    var s' := GrantPopApply(s, t, self, buf);
    if s.core.queue != [] {
      MarkKeepsNeeds(s, s', s.core.queue[0], At(s', s.core.queue[0]));
    }
  }

  lemma WakeKeepsNeeds(s: State, t: nat, self: Option<nat>, buf: seq<nat>)
    ensures NeedsKept(s, WakeApply(s, t, self, buf))
  {
    var s' := WakeApply(s, t, self, buf);
    if buf != [] {
      MarkKeepsNeeds(s, s', buf[0], At(s', buf[0]));
    }
  }

  lemma EnqueueKeepsNeeds(s: State, t: nat, w: nat)
    ensures NeedsKept(s, LinkApply(s, t, w)) && NeedsKept(s, SuspendApply(s, t, w))
  {
  }

  lemma RemovalKeepsNeeds(s: State, t: nat, w: nat)
    ensures NeedsKept(s, CancelApply(s, t, w)) && NeedsKept(s, DropApply(s, t, w))
  {
  }

  lemma NeedStays(s: State, t: nat, ok: bool)
    ensures NeedsKept(s, AdvanceApply(s, t, ok))
  {
    match PcOf(s, t)
    case Linking(w) => EnqueueKeepsNeeds(s, t, w);
    case GrantPop(self, buf) => PopKeepsNeeds(s, t, self, buf);
    case Cancelling(w) => RemovalKeepsNeeds(s, t, w);
    case Dropping(w) => RemovalKeepsNeeds(s, t, w);
    case Waking(self, buf) => WakeKeepsNeeds(s, t, self, buf);
    case SuspendTail(w) => EnqueueKeepsNeeds(s, t, w);
    case _ =>
  }

  lemma EqualNeverUncovers(s: State, step: Step, n: nat)
    requires Basic(s) && Covered(s) && AllNeed(s, n)
    ensures !Uncovers(s, step)
  {
  }

  lemma {:induction false} EqualSizesRun(s: State, steps: seq<Step>, n: nat)
    requires Basic(s) && Covered(s) && AllNeed(s, n) && Legal(s, steps) && SameSize(steps, n)
    ensures NeverUncovers(s, steps)
    decreases |steps|
  {
    if steps == [] {
    } else {
      BasicStep(s, steps[0]);
      EqualNeverUncovers(s, steps[0], n);
      CoveredStep(s, steps[0]);
      AllNeedStep(s, steps[0], n);
      EqualSizesRun(Apply(s, steps[0]), steps[1..], n);
    }
  }

  /** When all requests have one size, as for the mutex, no cancellation and no
      destructor can strand anybody. */
  lemma NoLostWakeupEqualSizes(s: State, steps: seq<Step>, n: nat)
    requires Init(s) && Legal(s, steps) && SameSize(steps, n)
    ensures var e := Exec(s, steps);
      Quiet(e) ==> e.core.queue == [] || e.core.permits < HeadNeed(e)
  {
    EqualSizesRun(s, steps, n);
    NoLostWakeup(s, steps);
  }
}
