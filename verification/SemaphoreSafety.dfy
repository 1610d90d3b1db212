/** What every reachable state of the semaphore protocol satisfies. */
module SemaphoreSafety {
  import opened Options
  import opened Queues
  import opened SemaphoreCore
  import opened SemaphoreProtocol

  // ----- the invariant -----

  ghost predicate Below(ids: seq<nat>, n: nat) {
    forall i :: 0 <= i < |ids| ==> ids[i] < n
  }

  ghost predicate PcInRange(pc: Pc, n: nat) {
    && Below(Buffer(pc), n)
    && (Enqueued(pc).Some? ==> Enqueued(pc).value < n)
    && (pc.Cancelling? ==> pc.w < n)
    && (pc.Dropping? ==> pc.w < n)
  }

  ghost predicate InRange(s: State) {
    && Below(s.core.queue, |s.waiters|)
    && (forall t :: 0 <= t < |s.threads| ==> PcInRange(s.threads[t], |s.waiters|))
  }

  ghost predicate LockOwned(s: State) {
    && (s.lock.Some? ==> s.lock.value < |s.threads|)
    && forall t :: 0 <= t < |s.threads| ==> (Holds(s.threads[t]) <==> s.lock == Some(t))
  }

  ghost predicate WaiterOk(x: Waiter) {
    && x.need > 0
    && (x.linked ==> x.entered && !x.acquired && !x.cancelled)
    && (x.acquired ==> x.entered && !x.cancelled)
    && (x.cancelled ==> x.entered && x.suspended)
    && (x.inline ==> x.acquired && !x.suspended)
    && (x.settled || x.wakes > 0 ==> x.acquired || x.cancelled)
    && (x.suspended ==> x.entered)
    && (x.dropped ==> x.suspended)
    && (x.entered && !x.dropped ==> x.linked || x.acquired || x.cancelled)
    && !x.rushed
  }

  ghost predicate WaitersOk(s: State) {
    forall w :: 0 <= w < |s.waiters| ==> WaiterOk(s.waiters[w])
  }

  /** The queue holds exactly the linked waiters, once each, and the flag mirrors it. */
  ghost predicate QueueOk(s: State) {
    && Distinct(s.core.queue)
    && (s.core.hasWaiters <==> s.core.queue != [])
    && (forall w :: 0 <= w < |s.waiters| ==> (s.waiters[w].linked <==> w in s.core.queue))
  }

  ghost predicate Resolved(s: State, ids: seq<nat>) {
    forall i :: 0 <= i < |ids| ==> At(s, ids[i]).acquired || At(s, ids[i]).cancelled
  }

  /** What a program counter knows about the shared state. */
  ghost predicate PcOk(s: State, pc: Pc) {
    && Resolved(s, Buffer(pc))
    && (Enqueued(pc).Some? ==>
          var x := At(s, Enqueued(pc).value); !x.suspended && (x.entered <==> !pc.Linking?))
    && match pc
       case TryLoad(n) => s.core.queue == [] && n > 0
       case TryCas(n, cur) => s.core.queue == [] && n > 0 && cur >= n
       case GrantCas(_, _, cur) => s.core.queue != [] && cur >= HeadNeed(s)
       case GrantPop(_, _) => s.core.queue != []
       case Cancelling(w) =>
         var x := At(s, w); (x.linked && x.suspended) || x.acquired || x.cancelled
       case Dropping(w) =>
         var x := At(s, w); x.suspended && x.dropped && !x.settled && (x.linked || x.acquired || x.cancelled)
       case _ => true
  }

  ghost predicate PcsOk(s: State) {
    forall t :: 0 <= t < |s.threads| ==> PcOk(s, s.threads[t])
  }

  /** No two threads are inside the await_suspend of one waiter. */
  ghost predicate OneEnqueuer(s: State) {
    forall t, u :: 0 <= t < |s.threads| && 0 <= u < |s.threads| && t != u && Enqueued(s.threads[t]).Some? ==>
      Enqueued(s.threads[t]) != Enqueued(s.threads[u])
  }

  ghost predicate Basic(s: State) {
    InRange(s) && LockOwned(s) && WaitersOk(s) && QueueOk(s) && PcsOk(s) && OneEnqueuer(s) && s.core.permits >= 0
  }

  // ----- three kinds of change, from which every step is composed -----

  ghost predicate SoleEnqueuer(s: State, t: nat, self: Option<nat>) {
    self.Some? ==> forall u :: 0 <= u < |s.threads| && u != t ==> Enqueued(s.threads[u]) != self
  }

  /** A thread moves on; queue, flag and waiters stay. */
  lemma PcMoves(s: State, s': State, t: nat, pc: Pc)
    requires Basic(s) && t < |s.threads|
    requires s'.threads == s.threads[t := pc] && s'.waiters == s.waiters
    requires s'.core.queue == s.core.queue && s'.core.hasWaiters == s.core.hasWaiters && s'.core.permits >= 0
    requires Holds(pc) ==> s.lock == None || s.lock == Some(t)
    requires s'.lock == if Holds(pc) then Some(t) else if s.lock == Some(t) then None else s.lock
    requires PcInRange(pc, |s.waiters|) && PcOk(s, pc) && SoleEnqueuer(s, t, Enqueued(pc))
    ensures Basic(s')
  {
    LockMoves(s, s', t, pc);
    PcsMove(s, s', t, pc);
    EnqueuerMoves(s, s', t, pc);
  }

  lemma LockMoves(s: State, s': State, t: nat, pc: Pc)
    requires LockOwned(s) && t < |s.threads| && s'.threads == s.threads[t := pc]
    requires Holds(pc) ==> s.lock == None || s.lock == Some(t)
    requires s'.lock == if Holds(pc) then Some(t) else if s.lock == Some(t) then None else s.lock
    ensures LockOwned(s')
  {
  }

  lemma PcsMove(s: State, s': State, t: nat, pc: Pc)
    requires PcsOk(s) && t < |s.threads| && s'.threads == s.threads[t := pc]
    requires s'.waiters == s.waiters && s'.core.queue == s.core.queue && PcOk(s, pc)
    ensures PcsOk(s')
  {
    forall u | 0 <= u < |s'.threads|
      ensures PcOk(s', s'.threads[u])
    {
      assert PcOk(s, if u == t then pc else s.threads[u]);
    }
  }

  lemma EnqueuerMoves(s: State, s': State, t: nat, pc: Pc)
    requires OneEnqueuer(s) && t < |s.threads| && s'.threads == s.threads[t := pc] && SoleEnqueuer(s, t, Enqueued(pc))
    ensures OneEnqueuer(s')
  {
  }

  /** Bookkeeping of one waiter changes; its place in the queue does not. */
  lemma WaiterMarks(s: State, w: nat, x: Waiter)
    requires Basic(s) && w < |s.waiters| && WaiterOk(x)
    requires var y := s.waiters[w];
      && x.need == y.need && x.entered == y.entered && x.linked == y.linked
      && x.acquired == y.acquired && x.cancelled == y.cancelled
      && (y.suspended ==> x.suspended) && (y.dropped ==> x.dropped)
    requires s.waiters[w].suspended != x.suspended ==>
               forall u :: 0 <= u < |s.threads| ==> Enqueued(s.threads[u]) != Some(w)
    requires s.waiters[w].settled != x.settled ==>
               forall u :: 0 <= u < |s.threads| ==> s.threads[u] != Dropping(w)
    ensures Basic(SetWaiter(s, w, x))
  {
    var s' := SetWaiter(s, w, x);
    forall u | 0 <= u < |s'.threads|
      ensures PcOk(s', s'.threads[u])
    {
      assert PcOk(s, s.threads[u]);
    }
  }

  /** The lock holder, at a point where it knows nothing of the queue, edits it. */
  lemma QueueEdit(s: State, t: nat, core: Core<nat>, w: nat, x: Waiter)
    requires Basic(s) && s.lock == Some(t) && w < |s.waiters| && WaiterOk(x)
    requires s.threads[t].GrantLoad? || s.threads[t].Unlocking?
    requires core.permits >= 0 && Distinct(core.queue) && (core.hasWaiters <==> core.queue != [])
    requires forall v :: v != w ==> (v in core.queue <==> v in s.core.queue)
    requires x.linked <==> w in core.queue
    requires x.need == s.waiters[w].need && x.suspended == s.waiters[w].suspended
    requires (s.waiters[w].acquired ==> x.acquired) && (s.waiters[w].cancelled ==> x.cancelled)
    requires s.waiters[w].entered != x.entered ==>
               forall u :: 0 <= u < |s.threads| ==> Enqueued(s.threads[u]) != Some(w)
    ensures Basic(SetWaiter(s.(core := core), w, x))
  {
    var s' := SetWaiter(s.(core := core), w, x);
    forall u | 0 <= u < |s'.threads|
      ensures PcOk(s', s'.threads[u])
    {
      assert PcOk(s, s.threads[u]);
    }
    forall i | 0 <= i < |core.queue|
      ensures core.queue[i] < |s.waiters|
    {
      assert core.queue[i] in core.queue;
    }
  }

  // ----- every step keeps the invariant -----

  lemma LinkBasic(s: State, t: nat, w: nat)
    requires Basic(s) && t < |s.threads| && s.threads[t] == Linking(w)
    ensures Basic(LinkApply(s, t, w))
  {
    assert PcOk(s, s.threads[t]) && PcInRange(s.threads[t], |s.waiters|);
    var s1 := SetPc(s, t, GrantLoad(None, []));
    PcMoves(s, s1, t, GrantLoad(None, []));
    var x := s.waiters[w].(entered := true, linked := true, ticket := s.tickets);
    assert WaiterOk(s.waiters[w]);
    QueueEdit(s1, t, LinkTail(s.core, w), w, x);
    var s2 := SetWaiter(s1.(core := LinkTail(s.core, w)), w, x);
    TakesSelf(s2, LinkApply(s, t, w), t, w);
  }

  lemma TakesSelf(s: State, s': State, t: nat, w: nat)
    requires Basic(s) && t < |s.threads| && s.threads[t] == GrantLoad(None, []) && w < |s.waiters|
    requires s.waiters[w].entered && !s.waiters[w].suspended && SoleEnqueuer(s, t, Some(w))
    requires s' == SetPc(s, t, GrantLoad(Some(w), [])).(tickets := s'.tickets)
    ensures Basic(s')
  {
    PcMoves(s, s', t, GrantLoad(Some(w), []));
  }

  lemma PopEdit(s: State, t: nat, x: Waiter)
    requires Basic(s) && s.lock == Some(t) && s.threads[t].GrantLoad? && s.core.queue != []
    requires var y := At(s, s.core.queue[0]).(acquired := true, linked := false);
      x == y || x == y.(wakes := y.wakes + 1) || (Enqueued(s.threads[t]) == Some(s.core.queue[0])
          && x == y.(inline := true))
    ensures Basic(SetWaiter(s.(core := Unlink(s.core, 0)), s.core.queue[0], x))
  {
    var w := s.core.queue[0];
    assert w in s.core.queue;
    assert WaiterOk(s.waiters[w]) && PcOk(s, s.threads[t]);
    WithoutMembers(s.core.queue, 0);
    QueueEdit(s, t, Unlink(s.core, 0), w, x);
  }

  lemma PopsLoad(s: State, t: nat, self: Option<nat>, buf: seq<nat>)
    requires Basic(s) && t < |s.threads| && s.threads[t] == GrantPop(self, buf)
    ensures Basic(SetPc(s, t, GrantLoad(self, buf)))
  {
    assert PcOk(s, s.threads[t]);
    PcMoves(s, SetPc(s, t, GrantLoad(self, buf)), t, GrantLoad(self, buf));
  }

  /** The head is granted and marked as x says; the thread is at its next load. */
  lemma PopMarks(s: State, s': State, t: nat, self: Option<nat>, buf: seq<nat>, x: Waiter)
    requires Basic(s) && t < |s.threads| && s.threads[t] == GrantPop(self, buf) && s.core.queue != []
    requires s' == SetWaiter(SetPc(s, t, GrantLoad(self, buf)).(core := Unlink(s.core, 0)), s.core.queue[0], x)
    requires var y := At(s, s.core.queue[0]).(acquired := true, linked := false);
      x == y || x == y.(wakes := y.wakes + 1) || (self == Some(s.core.queue[0]) && x == y.(inline := true))
    ensures Basic(s')
  {
    PopsLoad(s, t, self, buf);
    PopEdit(SetPc(s, t, GrantLoad(self, buf)), t, x);
  }

  lemma GrantPopBasic(s: State, t: nat, self: Option<nat>, buf: seq<nat>)
    requires Basic(s) && t < |s.threads| && s.threads[t] == GrantPop(self, buf)
    ensures Basic(GrantPopApply(s, t, self, buf))
  {
    var s' := GrantPopApply(s, t, self, buf);
    assert PcOk(s, s.threads[t]);
    var w := s.core.queue[0];
    assert w in s.core.queue;
    var x := s.waiters[w].(acquired := true, linked := false);
    if self == Some(w) {
      PopMarks(s, s', t, self, buf, x.(inline := true));
    } else if |buf| < WAKE_SLOTS {
      var s2 := SetWaiter(SetPc(s, t, GrantLoad(self, buf)).(core := Unlink(s.core, 0)), w, x);
      PopMarks(s, s2, t, self, buf, x);
      BufferOne(s2, t, self, buf, w);
      assert s' == SetPc(s2, t, GrantLoad(self, buf + [w]));
    } else {
      PopMarks(s, s', t, self, buf, x.(wakes := x.wakes + 1));
    }
  }

  lemma BufferOne(s: State, t: nat, self: Option<nat>, buf: seq<nat>, w: nat)
    requires Basic(s) && t < |s.threads| && s.threads[t] == GrantLoad(self, buf)
    requires w < |s.waiters| && s.waiters[w].acquired
    ensures Basic(SetPc(s, t, GrantLoad(self, buf + [w])))
  {
    assert PcOk(s, s.threads[t]) && PcInRange(s.threads[t], |s.waiters|);
    var pc := GrantLoad(self, buf + [w]);
    PcMoves(s, SetPc(s, t, pc), t, pc);
  }

  lemma RemoveEdit(s: State, t: nat, w: nat, x: Waiter)
    requires Basic(s) && s.lock == Some(t) && w < |s.waiters| && s.waiters[w].linked
    requires s.threads[t].GrantLoad? || s.threads[t].Unlocking?
    requires (s.waiters[w].dropped && x == s.waiters[w].(linked := false)) || (s.waiters[w].suspended
        && x == s.waiters[w].(linked := false, cancelled := true))
    ensures Basic(SetWaiter(s.(core := Remove(s.core, w)), w, x))
  {
    assert WaiterOk(s.waiters[w]);
    WithoutMembers(s.core.queue, IndexOf(s.core.queue, w));
    QueueEdit(s, t, Remove(s.core, w), w, x);
  }

  lemma CancelBasic(s: State, t: nat, w: nat)
    requires Basic(s) && t < |s.threads| && s.threads[t] == Cancelling(w)
    ensures Basic(CancelApply(s, t, w))
  {
    assert PcOk(s, s.threads[t]) && PcInRange(s.threads[t], |s.waiters|);
    var x := At(s, w);
    var s1 := SetPc(s, t, Unlocking(None, []));
    PcMoves(s, s1, t, Unlocking(None, []));
    if !x.acquired && !x.cancelled {
      var y := x.(linked := false, cancelled := true);
      RemoveEdit(s1, t, w, y);
      var s2 := SetWaiter(s1.(core := Remove(s.core, w)), w, y);
      assert CancelApply(s, t, w) == SetPc(s2, t, Unlocking(None, [w]));
      BufferCancelled(s2, t, w);
    }
  }

  lemma BufferCancelled(s: State, t: nat, w: nat)
    requires Basic(s) && t < |s.threads| && s.threads[t] == Unlocking(None, [])
    requires w < |s.waiters| && s.waiters[w].cancelled
    ensures Basic(SetPc(s, t, Unlocking(None, [w])))
  {
    PcMoves(s, SetPc(s, t, Unlocking(None, [w])), t, Unlocking(None, [w]));
  }

  lemma DropBasic(s: State, t: nat, w: nat)
    requires Basic(s) && t < |s.threads| && s.threads[t] == Dropping(w)
    ensures Basic(DropApply(s, t, w))
  {
    assert PcOk(s, s.threads[t]) && PcInRange(s.threads[t], |s.waiters|);
    var x := At(s, w);
    assert WaiterOk(x);
    if x.cancelled || !x.acquired {
      var s1 := SetPc(s, t, Unlocking(None, []));
      PcMoves(s, s1, t, Unlocking(None, []));
      if !x.cancelled {
        RemoveEdit(s1, t, w, x.(linked := false));
      }
    } else {
      var s1 := SetPc(AddPermits(s, x.need), t, GrantLoad(None, []));
      PcMoves(s, s1, t, GrantLoad(None, []));
      forall u | 0 <= u < |s1.threads|
        ensures s1.threads[u] != Dropping(w)
      {
        assert Holds(s1.threads[u]) <==> s1.lock == Some(u);
      }
      WaiterMarks(s1, w, x.(settled := true));
    }
  }

  lemma WakeBasic(s: State, t: nat, self: Option<nat>, buf: seq<nat>)
    requires Basic(s) && t < |s.threads| && s.threads[t] == Waking(self, buf)
    ensures Basic(WakeApply(s, t, self, buf))
  {
    assert PcOk(s, s.threads[t]) && PcInRange(s.threads[t], |s.waiters|);
    if buf != [] {
      WakeOneBasic(s, t, self, buf);
    } else {
      var pc := if self.Some? then SuspendTail(self.value) else Idle;
      PcMoves(s, SetPc(s, t, pc), t, pc);
    }
  }

  lemma WakeOneBasic(s: State, t: nat, self: Option<nat>, buf: seq<nat>)
    requires Basic(s) && t < |s.threads| && s.threads[t] == Waking(self, buf) && buf != []
    ensures Basic(WakeApply(s, t, self, buf))
  {
    BufferTail(s, t, self, buf);
    CountWake(SetPc(s, t, Waking(self, buf[1..])), buf[0], WakeApply(s, t, self, buf));
  }

  lemma BufferTail(s: State, t: nat, self: Option<nat>, buf: seq<nat>)
    requires Basic(s) && t < |s.threads| && s.threads[t] == Waking(self, buf) && buf != []
    ensures Basic(SetPc(s, t, Waking(self, buf[1..])))
    ensures buf[0] < |s.waiters| && (s.waiters[buf[0]].acquired || s.waiters[buf[0]].cancelled)
  {
    assert PcOk(s, s.threads[t]) && PcInRange(s.threads[t], |s.waiters|) && Buffer(s.threads[t]) == buf;
    var pc := Waking(self, buf[1..]);
    assert forall i :: 0 <= i < |buf[1..]| ==> buf[1..][i] == buf[i + 1];
    assert Resolved(s, buf[1..]);
    PcMoves(s, SetPc(s, t, pc), t, pc);
  }

  lemma CountWake(s: State, w: nat, s': State)
    requires Basic(s) && w < |s.waiters| && (s.waiters[w].acquired || s.waiters[w].cancelled)
    requires s' == s.(waiters := s.waiters[w := s.waiters[w].(wakes := s.waiters[w].wakes + 1)])
    ensures Basic(s')
  {
    assert WaiterOk(s.waiters[w]);
    WaiterMarks(s, w, s.waiters[w].(wakes := s.waiters[w].wakes + 1));
  }

  lemma SuspendBasic(s: State, t: nat, w: nat)
    requires Basic(s) && t < |s.threads| && s.threads[t] == SuspendTail(w)
    ensures Basic(SuspendApply(s, t, w))
  {
    assert PcOk(s, s.threads[t]) && PcInRange(s.threads[t], |s.waiters|);
    var s1 := SetPc(s, t, Idle);
    PcMoves(s, s1, t, Idle);
    assert WaiterOk(At(s, w));
    WaiterMarks(s1, w, At(SuspendApply(s, t, w), w));
  }

  /** The accesses that only move the thread, the lock and the permit counter. */
  lemma TryBasic(s: State, t: nat, ok: bool)
    requires Basic(s) && t < |s.threads| && (s.threads[t].TryLoad? || s.threads[t].TryCas?)
    ensures Basic(AdvanceApply(s, t, ok))
  {
    var s' := AdvanceApply(s, t, ok);
    assert PcOk(s, s.threads[t]) && PcInRange(s.threads[t], |s.waiters|);
    PcMoves(s, s', t, s'.threads[t]);
  }

  lemma PassBasic(s: State, t: nat, ok: bool)
    requires Basic(s) && t < |s.threads| && (s.threads[t].GrantLoad? || s.threads[t].GrantCas?)
    ensures Basic(AdvanceApply(s, t, ok))
  {
    var s' := AdvanceApply(s, t, ok);
    assert PcOk(s, s.threads[t]) && PcInRange(s.threads[t], |s.waiters|);
    PcMoves(s, s', t, s'.threads[t]);
  }

  lemma PlainBasic(s: State, t: nat, ok: bool)
    requires Basic(s) && Enabled(s, Advance(t, ok))
    requires s.threads[t].FlagTest? || s.threads[t].GrantEntry? || s.threads[t].Unlocking?
    ensures Basic(AdvanceApply(s, t, ok))
  {
    var s' := AdvanceApply(s, t, ok);
    assert PcOk(s, s.threads[t]) && PcInRange(s.threads[t], |s.waiters|);
    PcMoves(s, s', t, s'.threads[t]);
  }

  lemma AdvanceBasic(s: State, t: nat, ok: bool)
    requires Basic(s) && Enabled(s, Advance(t, ok))
    ensures Basic(AdvanceApply(s, t, ok))
  {
    match s.threads[t]
    case Linking(w) => LinkBasic(s, t, w);
    case GrantPop(self, buf) => GrantPopBasic(s, t, self, buf);
    case Cancelling(w) => CancelBasic(s, t, w);
    case Dropping(w) => DropBasic(s, t, w);
    case Waking(self, buf) => WakeBasic(s, t, self, buf);
    case SuspendTail(w) => SuspendBasic(s, t, w);
    case TryLoad(n) => TryBasic(s, t, ok);
    case TryCas(n, cur) => TryBasic(s, t, ok);
    case GrantLoad(self, buf) => PassBasic(s, t, ok);
    case GrantCas(self, buf, cur) => PassBasic(s, t, ok);
    case _ => PlainBasic(s, t, ok);
  }

  lemma ResumeBasic(s: State, w: nat)
    requires Basic(s) && Enabled(s, Resume(w))
    ensures Basic(ResumeApply(s, w))
  {
    assert WaiterOk(s.waiters[w]);
    var x := s.waiters[w].(settled := true);
    forall u | 0 <= u < |s.threads|
      ensures s.threads[u] != Dropping(w)
    {
      assert PcOk(s, s.threads[u]);
    }
    WaiterMarks(s, w, x);
    LedgerBasic(SetWaiter(s, w, x), ResumeApply(s, w));
  }

  lemma LockToDropBasic(s: State, t: nat, w: nat)
    requires Basic(s) && Enabled(s, LockToDrop(t, w))
    ensures Basic(Apply(s, LockToDrop(t, w)))
  {
    assert WaiterOk(s.waiters[w]);
    var x := s.waiters[w].(dropped := true);
    WaiterMarks(s, w, x);
    var s1 := SetWaiter(s, w, x);
    PcMoves(s1, Apply(s, LockToDrop(t, w)), t, Dropping(w));
  }

  lemma NewThreadBasic(s: State, s': State)
    requires Basic(s) && s' == s.(threads := s.threads + [Idle])
    ensures Basic(s')
  {
    forall u | 0 <= u < |s.threads|
      ensures PcOk(s', s'.threads[u])
    {
      assert PcOk(s, s.threads[u]);
    }
  }

  lemma NewWaiterBasic(s: State, s': State, n: nat)
    requires Basic(s) && n > 0 && s' == s.(waiters := s.waiters + [FreshWaiter(n)])
    ensures Basic(s')
  {
    assert |s.waiters| !in s.core.queue;
    forall u | 0 <= u < |s.threads|
      ensures PcOk(s', s'.threads[u]) && PcInRange(s'.threads[u], |s'.waiters|)
    {
      assert PcOk(s, s.threads[u]) && PcInRange(s.threads[u], |s.waiters|);
    }
  }

  lemma EnqueueBasic(s: State, t: nat, w: nat)
    requires Basic(s) && Enabled(s, LockToEnqueue(t, w))
    ensures Basic(Apply(s, LockToEnqueue(t, w)))
  {
    forall u | 0 <= u < |s.threads| && u != t
      ensures Enqueued(s.threads[u]) != Some(w)
    {
      assert PcOk(s, s.threads[u]);
      assert Holds(s.threads[u]) <==> s.lock == Some(u);
    }
    assert WaiterOk(s.waiters[w]);
    PcMoves(s, Apply(s, LockToEnqueue(t, w)), t, Linking(w));
  }

  /** The steps with which a thread enters one of the semaphore's operations. */
  lemma StartBasic(s: State, step: Step)
    requires Basic(s) && Enabled(s, step) && CancelInOrder(s, step)
    requires step.ReleaseAdd? || step.PermitDrop? || step.TryLock? || step.LockToCancel?
    ensures Basic(Apply(s, step))
  {
    var s' := Apply(s, step);
    PcMoves(s, s', step.t, s'.threads[step.t]);
  }

  lemma LedgerBasic(s: State, s': State)
    requires Basic(s)
    requires s'.core == s.core && s'.lock == s.lock && s'.waiters == s.waiters && s'.threads == s.threads
    ensures Basic(s')
  {
  }

  lemma BasicStep(s: State, step: Step)
    requires Basic(s) && Enabled(s, step) && CancelInOrder(s, step)
    ensures Basic(Apply(s, step))
  {
    match step
    case Advance(t, ok) => AdvanceBasic(s, t, ok);
    case Resume(w) => ResumeBasic(s, w);
    case LockToDrop(t, w) => LockToDropBasic(s, t, w);
    case LockToEnqueue(t, w) => EnqueueBasic(s, t, w);
    case NewThread => NewThreadBasic(s, Apply(s, step));
    case NewWaiter(n) => NewWaiterBasic(s, Apply(s, step), n);
    case ReleaseAdd(t, n) => StartBasic(s, step);
    case PermitDrop(t, p) => StartBasic(s, step);
    case TryLock(t, n) => StartBasic(s, step);
    case LockToCancel(t, w) => StartBasic(s, step);
    case _ => LedgerBasic(s, Apply(s, step));
  }
}
