/** The semaphore as a transition system. Every atomic access to the permit counter or
    to the has-waiters flag is a step of its own, and so are taking the queue lock,
    giving it back and handing a handle to the runtime. Plain accesses made under the
    lock are folded into the atomic access next to them. Atomics are sequentially
    consistent; a weak compare-exchange may fail at any time. */
module SemaphoreProtocol {
  import opened Options
  import opened SemaphoreCore

  /** One acquire_awaiter with its waiter node. Of the fields the source does not have,
      entered says the node has been linked at some time, ticket is its place in the
      order of linking, inline says the enqueuing thread granted it itself, suspended
      that await_suspend returned true, rushed that await_suspend returned false because
      it saw the cancelled mark, settled that the permits went to a permit object or
      back, dropped that the destructor has begun, and wakes counts how often the handle went to the runtime. */
  datatype Waiter = Waiter(
    need: nat,
    entered: bool,
    linked: bool,
    acquired: bool,
    cancelled: bool,
    inline: bool,
    suspended: bool,
    rushed: bool,
    settled: bool,
    dropped: bool,
    ticket: nat,
    wakes: nat)

  /** Where a thread is inside the semaphore's operations. */
  datatype Pc =
    | Idle
    | FlagTest
    | GrantEntry
    | TryLoad(n: nat)
    | TryCas(n: nat, cur: int)
    | Linking(w: nat)
    | GrantLoad(self: Option<nat>, buf: seq<nat>)
    | GrantCas(self: Option<nat>, buf: seq<nat>, cur: int)
    | GrantPop(self: Option<nat>, buf: seq<nat>)
    | Cancelling(w: nat)
    | Dropping(w: nat)
    | Unlocking(self: Option<nat>, buf: seq<nat>)
    | Waking(self: Option<nat>, buf: seq<nat>)
    | SuspendTail(w: nat)

  datatype State = State(
    core: Core<nat>,
    lock: Option<nat>,
    waiters: seq<Waiter>,
    threads: seq<Pc>,
    held: seq<nat>,
    forgotten: nat,
    released: nat,
    initial: nat,
    tickets: nat)

  /** What can happen next: a call begins, a thread inside a call takes its next access
      (ok decides whether a compare-exchange that could succeed does), a waiter resumes,
      or a permit object is moved, merged or forgotten. */
  datatype Step =
    | NewThread
    | NewWaiter(n: nat)
    | ReleaseAdd(t: nat, n: nat)
    | PermitDrop(t: nat, p: nat)
    | TryLock(t: nat, n: nat)
    | LockToEnqueue(t: nat, w: nat)
    | LockToCancel(t: nat, w: nat)
    | LockToDrop(t: nat, w: nat)
    | Advance(t: nat, ok: bool)
    | Resume(w: nat)
    | TryZero
    | PermitMove(p: nat)
    | PermitMerge(p: nat, q: nat)
    | PermitForget(p: nat)

  /** The handles a thread has collected and not yet handed to the runtime. */
  function Buffer(pc: Pc): seq<nat> {
    match pc
    case GrantLoad(_, b) => b
    case GrantCas(_, b, _) => b
    case GrantPop(_, b) => b
    case Unlocking(_, b) => b
    case Waking(_, b) => b
    case _ => []
  }

  /** The waiter whose await_suspend the thread is running, if any. */
  function Enqueued(pc: Pc): Option<nat> {
    match pc
    case Linking(w) => Some(w)
    case GrantLoad(self, _) => self
    case GrantCas(self, _, _) => self
    case GrantPop(self, _) => self
    case Unlocking(self, _) => self
    case Waking(self, _) => self
    case SuspendTail(w) => Some(w)
    case _ => None
  }

  predicate Holds(pc: Pc) {
    !(pc.Idle? || pc.FlagTest? || pc.GrantEntry? || pc.Waking? || pc.SuspendTail?)
  }

  function FreshWaiter(n: nat): Waiter {
    Waiter(n, false, false, false, false, false, false, false, false, false, 0, 0)
  }

  /** Total lookups: the invariant shows that the default is never used. */
  function At(s: State, w: nat): Waiter {
    if w < |s.waiters| then s.waiters[w] else FreshWaiter(1)
  }

  function SetWaiter(s: State, w: nat, x: Waiter): State {
    if w < |s.waiters| then s.(waiters := s.waiters[w := x]) else s
  }

  function PcOf(s: State, t: nat): Pc {
    if t < |s.threads| then s.threads[t] else Idle
  }

  function SetPc(s: State, t: nat, pc: Pc): State {
    if t < |s.threads| then s.(threads := s.threads[t := pc]) else s
  }

  function AddPermits(s: State, d: int): State {
    s.(core := s.core.(permits := s.core.permits + d))
  }

  function HeadNeed(s: State): nat {
    if s.core.queue == [] then 0 else At(s, s.core.queue[0]).need
  }

  // ----- the accesses of a thread inside a call -----

  /** try_acquire's loop: give up, or try to swap cur for cur - n. */
  function TryFrom(s: State, n: nat): Pc {
    if s.core.permits >= n then TryCas(n, s.core.permits) else Unlocking(None, [])
  }

  function TryCasApply(s: State, t: nat, n: nat, cur: int, ok: bool): State {
    if ok && s.core.permits == cur then
      SetPc(AddPermits(s, 0 - n).(held := s.held + [n]), t, Unlocking(None, []))
    else
      SetPc(s, t, TryFrom(s, n))
  }

  function LinkApply(s: State, t: nat, w: nat): State {
    var x := At(s, w).(entered := true, linked := true, ticket := s.tickets);
    SetPc(SetWaiter(s.(core := LinkTail(s.core, w), tickets := s.tickets + 1), w, x), t, GrantLoad(Some(w), []))
  }

  function GrantLoadApply(s: State, t: nat, self: Option<nat>, buf: seq<nat>): State {
    if s.core.queue == [] || s.core.permits < HeadNeed(s) then
      SetPc(s, t, Unlocking(self, buf))
    else
      SetPc(s, t, GrantCas(self, buf, s.core.permits))
  }

  function GrantCasApply(s: State, t: nat, self: Option<nat>, buf: seq<nat>, cur: int, ok: bool): State {
    if ok && s.core.permits == cur then
      SetPc(AddPermits(s, 0 - HeadNeed(s)), t, GrantPop(self, buf))
    else
      SetPc(s, t, GrantLoad(self, buf))
  }

  /** grant_locked after a successful compare-exchange. */
  function GrantPopApply(s: State, t: nat, self: Option<nat>, buf: seq<nat>): State {
    if s.core.queue == [] then s else
      var w := s.core.queue[0];
      var x := At(s, w).(acquired := true, linked := false);
      var s1 := s.(core := Unlink(s.core, 0));
      if self == Some(w) then
        SetPc(SetWaiter(s1, w, x.(inline := true)), t, GrantLoad(self, buf))
      else if |buf| < WAKE_SLOTS then
        SetPc(SetWaiter(s1, w, x), t, GrantLoad(self, buf + [w]))
      else
        SetPc(SetWaiter(s1, w, x.(wakes := x.wakes + 1)), t, GrantLoad(self, buf))
  }

  /** try_cancel_waiter under the lock; a true result schedules the handle after it. */
  function CancelApply(s: State, t: nat, w: nat): State {
    var x := At(s, w);
    if x.acquired || x.cancelled then
      SetPc(s, t, Unlocking(None, []))
    else
      SetPc(SetWaiter(s.(core := Remove(s.core, w)), w, x.(linked := false, cancelled := true)),
            t, Unlocking(None, [w]))
  }

  /** dequeue_or_return under the lock. */
  function DropApply(s: State, t: nat, w: nat): State {
    var x := At(s, w);
    if x.cancelled then
      SetPc(s, t, Unlocking(None, []))
    else if !x.acquired then
      SetPc(SetWaiter(s.(core := Remove(s.core, w)), w, x.(linked := false)), t, Unlocking(None, []))
    else
      SetPc(SetWaiter(AddPermits(s, x.need), w, x.(settled := true)), t, GrantLoad(None, []))
  }

  function WakeApply(s: State, t: nat, self: Option<nat>, buf: seq<nat>): State {
    if buf != [] then
      var x := At(s, buf[0]);
      SetPc(SetWaiter(s, buf[0], x.(wakes := x.wakes + 1)), t, Waking(self, buf[1..]))
    else
      SetPc(s, t, if self.Some? then SuspendTail(self.value) else Idle)
  }

  /** The end of await_suspend. */
  function SuspendApply(s: State, t: nat, w: nat): State {
    var x := At(s, w);
    var y := if x.inline then x else if x.cancelled then x.(rushed := true) else x.(suspended := true);
    SetPc(SetWaiter(s, w, y), t, Idle)
  }

  function AdvanceApply(s: State, t: nat, ok: bool): State {
    match PcOf(s, t)
    case Idle => s
    case FlagTest => SetPc(s, t, if s.core.hasWaiters then GrantEntry else Idle)
    case GrantEntry => SetPc(s.(lock := Some(t)), t, GrantLoad(None, []))
    case TryLoad(n) => SetPc(s, t, TryFrom(s, n))
    case TryCas(n, cur) => TryCasApply(s, t, n, cur, ok)
    case Linking(w) => LinkApply(s, t, w)
    case GrantLoad(self, buf) => GrantLoadApply(s, t, self, buf)
    case GrantCas(self, buf, cur) => GrantCasApply(s, t, self, buf, cur, ok)
    case GrantPop(self, buf) => GrantPopApply(s, t, self, buf)
    case Cancelling(w) => CancelApply(s, t, w)
    case Dropping(w) => DropApply(s, t, w)
    case Unlocking(self, buf) => SetPc(s.(lock := None), t, Waking(self, buf))
    case Waking(self, buf) => WakeApply(s, t, self, buf)
    case SuspendTail(w) => SuspendApply(s, t, w)
  }

  // ----- the transition system -----

  predicate CanStart(s: State, t: nat) {
    t < |s.threads| && s.threads[t].Idle?
  }

  predicate Enabled(s: State, step: Step) {
    match step
    case NewThread => true
    case NewWaiter(n) => n > 0
    case ReleaseAdd(t, n) => CanStart(s, t) && n > 0
    case PermitDrop(t, p) => CanStart(s, t) && p < |s.held| && s.held[p] > 0
    case TryLock(t, n) => CanStart(s, t) && s.lock == None && n > 0
    case LockToEnqueue(t, w) => CanStart(s, t) && s.lock == None && w < |s.waiters| && !s.waiters[w].entered
    case LockToCancel(t, w) => CanStart(s, t) && s.lock == None && w < |s.waiters|
    case LockToDrop(t, w) =>
      && CanStart(s, t) && s.lock == None && w < |s.waiters|
      && s.waiters[w].suspended && !s.waiters[w].dropped && !s.waiters[w].settled
    case Advance(t, ok) =>
      t < |s.threads| && !s.threads[t].Idle? && (s.threads[t].GrantEntry? ==> s.lock == None)
    case Resume(w) =>
      && w < |s.waiters| && !s.waiters[w].settled && !s.waiters[w].dropped
      && (s.waiters[w].inline || s.waiters[w].rushed || (s.waiters[w].suspended && s.waiters[w].wakes > 0))
    case TryZero => true
    case PermitMove(p) => p < |s.held|
    case PermitMerge(p, q) => p < |s.held| && q < |s.held| && p != q
    case PermitForget(p) => p < |s.held|
  }

  /** The side condition on cancellation: a scope's callback reaches a waiter only once
      its await_suspend is over and while the node is linked, acquired or cancelled. */
  predicate CancelInOrder(s: State, step: Step) {
    step.LockToCancel? ==>
      var x := At(s, step.w);
      (x.linked && x.suspended) || x.acquired || x.cancelled
  }

  function ResumeApply(s: State, w: nat): State {
    var x := At(s, w);
    var s1 := SetWaiter(s, w, x.(settled := true));
    if x.acquired then s1.(held := s1.held + [x.need]) else s1
  }

  function Apply(s: State, step: Step): State
    requires Enabled(s, step)
  {
    match step
    case NewThread => s.(threads := s.threads + [Idle])
    case NewWaiter(n) => s.(waiters := s.waiters + [FreshWaiter(n)])
    case ReleaseAdd(t, n) => SetPc(AddPermits(s, n).(released := s.released + n), t, FlagTest)
    case PermitDrop(t, p) => SetPc(AddPermits(s, s.held[p]).(held := s.held[p := 0]), t, FlagTest)
    case TryLock(t, n) =>
      SetPc(s.(lock := Some(t)), t, if s.core.queue != [] then Unlocking(None, []) else TryLoad(n))
    case LockToEnqueue(t, w) => SetPc(s.(lock := Some(t)), t, Linking(w))
    case LockToCancel(t, w) => SetPc(s.(lock := Some(t)), t, Cancelling(w))
    case LockToDrop(t, w) =>
      SetPc(SetWaiter(s.(lock := Some(t)), w, At(s, w).(dropped := true)), t, Dropping(w))
    case Advance(t, ok) => AdvanceApply(s, t, ok)
    case Resume(w) => ResumeApply(s, w)
    case TryZero => s.(held := s.held + [0])
    case PermitMove(p) => s.(held := s.held[p := 0] + [s.held[p]])
    case PermitMerge(p, q) => s.(held := s.held[p := s.held[p] + s.held[q]][q := 0])
    case PermitForget(p) => s.(held := s.held[p := 0], forgotten := s.forgotten + s.held[p])
  }

  predicate Init(s: State) {
    && s.core == Core(s.initial, false, [])
    && s.lock == None
    && s.waiters == [] && s.threads == [] && s.held == []
    && s.forgotten == 0 && s.released == 0 && s.tickets == 0
  }

  /** A run: every step is one the code can take, cancellation in order. */
  ghost predicate Legal(s: State, steps: seq<Step>)
    decreases |steps|
  {
    steps == [] || (Enabled(s, steps[0]) && CancelInOrder(s, steps[0]) && Legal(Apply(s, steps[0]), steps[1..]))
  }

  ghost function Exec(s: State, steps: seq<Step>): State
    requires Legal(s, steps)
    decreases |steps|
  {
    if steps == [] then s else Exec(Apply(s, steps[0]), steps[1..])
  }

  // ----- the accesses that leave the queue and the waiters alone -----

  predicate IsPlain(pc: Pc) {
    pc.FlagTest? || pc.GrantEntry? || pc.TryLoad? || pc.TryCas? || pc.GrantLoad? || pc.GrantCas? || pc.Unlocking?
  }

  /** Thread t moves, and at most the permits, the lock and the permit objects change. */
  ghost predicate PlainMove(s: State, s': State, t: nat) {
    && t < |s.threads| && |s'.threads| == |s.threads| && s'.threads == s.threads[t := s'.threads[t]]
    && s'.waiters == s.waiters && s'.tickets == s.tickets
    && s'.core.queue == s.core.queue && s'.core.hasWaiters == s.core.hasWaiters
    && Buffer(s'.threads[t]) == Buffer(s.threads[t]) && Enqueued(s'.threads[t]) == Enqueued(s.threads[t])
  }

  lemma PlainMoves(s: State, t: nat, ok: bool)
    requires t < |s.threads| && IsPlain(s.threads[t])
    ensures PlainMove(s, AdvanceApply(s, t, ok), t)
  {
  }
}
