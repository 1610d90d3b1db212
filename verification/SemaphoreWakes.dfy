/** How often the semaphore gives a waiter's handle to the runtime. */
module SemaphoreWakes {
  import opened Options
  import opened SemaphoreProtocol
  import opened SemaphoreSafety
  import opened Sums

  function Occurrences(threads: seq<Pc>, w: nat): seq<int> {
    seq(|threads|, t requires 0 <= t < |threads| => multiset(Buffer(threads[t]))[w])
  }

  /** Handles of w collected by some thread and not yet handed over. */
  function InBuffers(threads: seq<Pc>, w: nat): int {
    Sum(Occurrences(threads, w))
  }

  /** A waiter is resumed through the runtime when another call resolved it. */
  predicate WakeDue(x: Waiter) {
    (x.acquired && !x.inline) || x.cancelled
  }

  ghost predicate WokenOnce(s: State, w: nat)
    requires w < |s.waiters|
  {
    s.waiters[w].wakes + InBuffers(s.threads, w) == if WakeDue(s.waiters[w]) then 1 else 0
  }

  lemma BufferChange(threads: seq<Pc>, t: nat, pc: Pc, w: nat)
    requires t < |threads|
    ensures InBuffers(threads[t := pc], w)
         == InBuffers(threads, w) - multiset(Buffer(threads[t]))[w] + multiset(Buffer(pc))[w]
  {
    var o := Occurrences(threads, w);
    assert Occurrences(threads[t := pc], w) == o[t := multiset(Buffer(pc))[w]];
    SumUpdate(o, t, multiset(Buffer(pc))[w]);
  }

  function DueCount(x: Waiter): nat {
    if WakeDue(x) then 1 else 0
  }

  /** One thread moves: what w's buffer entries and wakes gain, its due gains. */
  lemma Rebooked(s: State, s': State, t: nat, w: nat)
    requires w < |s.waiters| && WokenOnce(s, w) && t < |s.threads|
    requires |s'.waiters| == |s.waiters| && |s'.threads| == |s.threads| && s'.threads == s.threads[t := s'.threads[t]]
    requires s'.waiters[w].wakes + multiset(Buffer(s'.threads[t]))[w] - DueCount(s'.waiters[w])
          == s.waiters[w].wakes + multiset(Buffer(s.threads[t]))[w] - DueCount(s.waiters[w])
    ensures WokenOnce(s', w)
  {
    BufferChange(s.threads, t, s'.threads[t], w);
  }

  lemma CountLast(buf: seq<nat>, h: nat, w: nat)
    ensures multiset(buf + [h])[w] == multiset(buf)[w] + if h == w then 1 else 0
  {
    assert multiset(buf + [h]) == multiset(buf) + multiset{h};
  }

  lemma CountFirst(buf: seq<nat>, w: nat)
    requires buf != []
    ensures multiset(buf)[w] == multiset(buf[1..])[w] + if buf[0] == w then 1 else 0
  {
    assert buf == [buf[0]] + buf[1..];
    assert multiset(buf) == multiset{buf[0]} + multiset(buf[1..]);
  }

  lemma GrantWakes(s: State, t: nat, self: Option<nat>, buf: seq<nat>, w: nat)
    requires w < |s.waiters| && WokenOnce(s, w)
    requires s.core.queue != [] && s.core.queue[0] < |s.waiters|
    requires !At(s, s.core.queue[0]).acquired && !At(s, s.core.queue[0]).cancelled && !At(s, s.core.queue[0]).inline
    requires t < |s.threads| && s.threads[t] == GrantPop(self, buf)
    ensures |GrantPopApply(s, t, self, buf).waiters| == |s.waiters| && WokenOnce(GrantPopApply(s, t, self, buf), w)
  {
    var h := s.core.queue[0];
    CountLast(buf, h, w);
    Rebooked(s, GrantPopApply(s, t, self, buf), t, w);
  }

  lemma CancelWakes(s: State, t: nat, v: nat, w: nat)
    requires w < |s.waiters| && WokenOnce(s, w) && t < |s.threads| && s.threads[t] == Cancelling(v)
    requires !At(s, v).inline || At(s, v).acquired
    ensures |CancelApply(s, t, v).waiters| == |s.waiters| && WokenOnce(CancelApply(s, t, v), w)
  {
    assert multiset([v])[w] == if v == w then 1 else 0;
    Rebooked(s, CancelApply(s, t, v), t, w);
  }

  lemma DropWakes(s: State, t: nat, v: nat, w: nat)
    requires w < |s.waiters| && WokenOnce(s, w) && t < |s.threads| && s.threads[t] == Dropping(v)
    ensures |DropApply(s, t, v).waiters| == |s.waiters| && WokenOnce(DropApply(s, t, v), w)
  {
    Rebooked(s, DropApply(s, t, v), t, w);
  }

  lemma HandOverWakes(s: State, t: nat, self: Option<nat>, buf: seq<nat>, w: nat)
    requires w < |s.waiters| && WokenOnce(s, w)
    requires t < |s.threads| && s.threads[t] == Waking(self, buf) && (buf != [] ==> buf[0] < |s.waiters|)
    ensures |WakeApply(s, t, self, buf).waiters| == |s.waiters| && WokenOnce(WakeApply(s, t, self, buf), w)
  {
    if buf != [] {
      CountFirst(buf, w);
    }
    Rebooked(s, WakeApply(s, t, self, buf), t, w);
  }

  lemma MarkWakes(s: State, t: nat, ok: bool, w: nat)
    requires w < |s.waiters| && WokenOnce(s, w) && t < |s.threads|
    requires s.threads[t].Linking? || s.threads[t].SuspendTail?
    ensures |AdvanceApply(s, t, ok).waiters| == |s.waiters| && WokenOnce(AdvanceApply(s, t, ok), w)
  {
    Rebooked(s, AdvanceApply(s, t, ok), t, w);
  }

  lemma PlainWakes(s: State, s': State, t: nat, w: nat)
    requires w < |s.waiters| && WokenOnce(s, w) && PlainMove(s, s', t)
    ensures |s'.waiters| == |s.waiters| && WokenOnce(s', w)
  {
    Rebooked(s, s', t, w);
  }

  lemma HeadUnresolved(s: State, t: nat)
    requires Basic(s) && t < |s.threads| && s.threads[t].GrantPop?
    ensures s.core.queue != [] && s.core.queue[0] < |s.waiters|
    ensures var x := At(s, s.core.queue[0]); !x.acquired && !x.cancelled && !x.inline
  {
    assert PcOk(s, s.threads[t]);
    assert s.core.queue[0] in s.core.queue;
    assert WaiterOk(s.waiters[s.core.queue[0]]);
  }

  lemma AdvanceWakes(s: State, t: nat, ok: bool, w: nat)
    requires Basic(s) && w < |s.waiters| && WokenOnce(s, w) && t < |s.threads|
    ensures |AdvanceApply(s, t, ok).waiters| == |s.waiters| && WokenOnce(AdvanceApply(s, t, ok), w)
  {
    match s.threads[t]
    case GrantPop(self, buf) =>
      HeadUnresolved(s, t);
      GrantWakes(s, t, self, buf, w);
    case Cancelling(v) =>
      assert PcInRange(s.threads[t], |s.waiters|) && WaiterOk(s.waiters[v]);
      CancelWakes(s, t, v, w);
    case Dropping(v) => DropWakes(s, t, v, w);
    case Waking(self, buf) =>
      assert PcInRange(s.threads[t], |s.waiters|) && Buffer(s.threads[t]) == buf;
      HandOverWakes(s, t, self, buf, w);
    case Linking(v) => MarkWakes(s, t, ok, w);
    case SuspendTail(v) => MarkWakes(s, t, ok, w);
    case Idle => assert AdvanceApply(s, t, ok) == s;
    case _ =>
      PlainMoves(s, t, ok);
      PlainWakes(s, AdvanceApply(s, t, ok), t, w);
  }

  lemma CallWakes(s: State, step: Step, w: nat)
    requires w < |s.waiters| && WokenOnce(s, w) && Enabled(s, step)
    requires !step.Advance? && !step.NewThread? && !step.NewWaiter?
    ensures |Apply(s, step).waiters| == |s.waiters| && WokenOnce(Apply(s, step), w)
  {
    if step.ReleaseAdd? || step.PermitDrop? || step.TryLock? || step.LockToEnqueue? || step.LockToCancel?
        || step.LockToDrop? {
      BufferChange(s.threads, step.t, Apply(s, step).threads[step.t], w);
    }
  }

  lemma NotBuffered(threads: seq<Pc>, w: nat)
    requires forall t :: 0 <= t < |threads| ==> w !in Buffer(threads[t])
    ensures InBuffers(threads, w) == 0
  {
    SumZero(Occurrences(threads, w));
  }

  ghost predicate AllWokenOnce(s: State) {
    forall w :: 0 <= w < |s.waiters| ==> WokenOnce(s, w)
  }

  lemma ArrivalWakes(s: State, step: Step)
    requires InRange(s) && AllWokenOnce(s) && (step.NewThread? || step.NewWaiter?) && Enabled(s, step)
    ensures AllWokenOnce(Apply(s, step))
  {
    var s' := Apply(s, step);
    forall w | 0 <= w < |s'.waiters|
      ensures WokenOnce(s', w)
    {
      if step.NewThread? {
        assert Occurrences(s'.threads, w) == Occurrences(s.threads, w) + [0];
        SumAppend(Occurrences(s.threads, w), 0);
        assert WokenOnce(s, w);
      } else if w == |s.waiters| {
        forall t | 0 <= t < |s.threads|
          ensures w !in Buffer(s.threads[t])
        {
          assert PcInRange(s.threads[t], |s.waiters|);
        }
        NotBuffered(s.threads, w);
      } else {
        assert WokenOnce(s, w);
      }
    }
  }

  lemma WakesStep(s: State, step: Step)
    requires Basic(s) && AllWokenOnce(s) && Enabled(s, step)
    ensures AllWokenOnce(Apply(s, step))
  {
    if step.NewThread? || step.NewWaiter? {
      ArrivalWakes(s, step);
    } else {
      forall w | 0 <= w < |s.waiters|
        ensures |Apply(s, step).waiters| == |s.waiters| && WokenOnce(Apply(s, step), w)
      {
        if step.Advance? {
          AdvanceWakes(s, step.t, step.ok, w);
        } else {
          CallWakes(s, step, w);
        }
      }
      WaitersStay(s, step);
    }
  }

  lemma WaitersStay(s: State, step: Step)
    requires Enabled(s, step) && !step.NewThread? && !step.NewWaiter?
    ensures |Apply(s, step).waiters| == |s.waiters|
  {
    if step.Advance? {
      AdvanceStays(s, step.t, step.ok);
    }
  }

  lemma AdvanceStays(s: State, t: nat, ok: bool)
    ensures |AdvanceApply(s, t, ok).waiters| == |s.waiters|
  {
  }

  lemma {:induction false} WakesRun(s: State, steps: seq<Step>)
    requires Basic(s) && AllWokenOnce(s) && Legal(s, steps)
    ensures Basic(Exec(s, steps)) && AllWokenOnce(Exec(s, steps))
    decreases |steps|
  {
    if steps == [] {
    } else {
      BasicStep(s, steps[0]);
      WakesStep(s, steps[0]);
      WakesRun(Apply(s, steps[0]), steps[1..]);
    }
  }

  /** No waiter is resumed twice: it is granted inline, or its handle goes to the runtime
      once because it was granted or cancelled by another call, never both; and when no
      call is under way every such waiter has been handed over. */
  lemma ResumedOnce(s: State, steps: seq<Step>, w: nat)
    requires Init(s) && Legal(s, steps) && w < |Exec(s, steps).waiters|
    ensures var e := Exec(s, steps); var x := e.waiters[w];
      && !x.rushed
      && x.wakes <= 1
      && (x.wakes == 1 ==> x.acquired != x.cancelled && !x.inline)
      && (x.inline ==> x.wakes == 0)
      && ((forall t :: 0 <= t < |e.threads| ==> e.threads[t].Idle?) ==> (x.wakes == 1 <==> WakeDue(x)))
  {
    WakesRun(s, steps);
    var e := Exec(s, steps);
    assert WokenOnce(e, w) && WaiterOk(e.waiters[w]);
    SumNonNegative(Occurrences(e.threads, w));
    if forall t :: 0 <= t < |e.threads| ==> e.threads[t].Idle? {
      NotBuffered(e.threads, w);
    }
  }
}
