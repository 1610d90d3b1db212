/** What a leaf does with the coroutine that awaits it, read off the runs of OneshotProtocol
    and BlockingProtocol: it parks it, and it gives its handle to the run queue. And what
    RuntimeProtocol takes for granted of leaves: a stay at a leaf is one park, one wake. */
module LeafProtocol {
  import B = BlockingProtocol
  import C = OneshotCore
  import O = OneshotProtocol
  import R = RuntimeProtocol

  datatype Event = Park | Wake

  /** A whole stay at a leaf. */
  const STAY := [Park, Wake]

  // ----- a oneshot receiver -----

  function OneshotEvents<V>(s: O.State<V>, step: O.Step<V>): seq<Event>
    requires O.Enabled(s, step)
  {
    var s' := O.Apply(s, step);
    (if !s.receiver.Suspended? && s'.receiver.Suspended? then [Park] else []) +
    (if s.wakes < s'.wakes then [Wake] else [])
  }

  ghost function OneshotEventsIn<V>(s: O.State<V>, steps: seq<O.Step<V>>): seq<Event>
    requires O.Legal(s, steps)
    decreases |steps|
  {
    if steps == [] then [] else OneshotEvents(s, steps[0]) + OneshotEventsIn(O.Apply(s, steps[0]), steps[1..])
  }

  function OneshotPast<V>(s: O.State<V>): seq<Event> {
    (if s.receiver.Suspended? || s.wakes > 0 then [Park] else []) + (if s.wakes > 0 then [Wake] else [])
  }

  lemma OneshotGrows<V>(s: O.State<V>, step: O.Step<V>)
    requires O.Inv(s) && O.Enabled(s, step)
    ensures OneshotPast(s) + OneshotEvents(s, step) == OneshotPast(O.Apply(s, step))
  {
  }

  lemma Regroup(a: seq<Event>, b: seq<Event>, c: seq<Event>)
    ensures a + (b + c) == a + b + c
  {
  }

  lemma NothingBefore(a: seq<Event>)
    ensures [] + a == a
  {
  }

  lemma {:induction false} OneshotRun<V>(s: O.State<V>, steps: seq<O.Step<V>>)
    requires O.Inv(s) && O.Legal(s, steps)
    ensures OneshotPast(s) + OneshotEventsIn(s, steps) == OneshotPast(O.Exec(s, steps))
    decreases |steps|
  {
    if steps == [] {
    } else {
      O.InvStep(s, steps[0]);
      OneshotGrows(s, steps[0]);
      OneshotRun(O.Apply(s, steps[0]), steps[1..]);
      Regroup(OneshotPast(s), OneshotEvents(s, steps[0]), OneshotEventsIn(O.Apply(s, steps[0]), steps[1..]));
    }
  }

  lemma OneshotAsPast<V>(s: O.State<V>, steps: seq<O.Step<V>>)
    requires O.Init(s) && O.Legal(s, steps)
    ensures OneshotEventsIn(s, steps) == OneshotPast(O.Exec(s, steps))
  {
    OneshotRun(s, steps);
    assert OneshotPast(s) == [];
    NothingBefore(OneshotEventsIn(s, steps));
  }

  /** A oneshot parks its receiver at most once and wakes it at most once, after that; and
      once it is resolved and nothing is under way, a parked receiver was woken. */
  lemma OneshotIsStay<V>(s: O.State<V>, steps: seq<O.Step<V>>)
    requires O.Init(s) && O.Legal(s, steps)
    ensures OneshotEventsIn(s, steps) <= STAY
    ensures var e := O.Exec(s, steps);
      O.Taken(e) == e.wakes && C.Resolved(e.cell) && Park in OneshotEventsIn(s, steps) ==>
        OneshotEventsIn(s, steps) == STAY
  {
    O.InvRun(s, steps);
    OneshotAsPast(s, steps);
  }

  // ----- a blocking job -----

  /** The park is the enqueue; the wake is the hand-over by a worker or a canceller. */
  function JobPast(s: B.State, j: nat): seq<Event> {
    (if B.At(s, j).accepted then [Park] else []) + (if B.At(s, j).wakes > 0 then [Wake] else [])
  }

  function JobEvents(s: B.State, step: B.Step, j: nat): seq<Event>
    requires B.Enabled(s, step)
  {
    var x, y := B.At(s, j), B.At(B.Apply(s, step), j);
    (if !x.accepted && y.accepted then [Park] else []) + (if x.wakes < y.wakes then [Wake] else [])
  }

  ghost function JobEventsIn(s: B.State, steps: seq<B.Step>, j: nat): seq<Event>
    requires B.Legal(s, steps)
    decreases |steps|
  {
    if steps == [] then [] else JobEvents(s, steps[0], j) + JobEventsIn(B.Apply(s, steps[0]), steps[1..], j)
  }

  /** An accepted job stays accepted, and no hand-over is taken back. */
  ghost predicate JobKeeps(x: B.Job, y: B.Job) {
    (x.accepted ==> y.accepted) && x.wakes <= y.wakes
  }

  lemma SuspendKeeps(x: B.Job)
    requires x.pc.ToCheck? || x.pc.ToArm? || x.pc.Recheck? || x.pc.LateMark? || x.pc.LateWake?
    ensures JobKeeps(x, B.AwaiterLocal(x))
  {
    match x.pc
    case ToCheck =>
    case ToArm =>
    case _ =>
  }

  lemma LocalKeeps(x: B.Job)
    ensures JobKeeps(x, B.AwaiterLocal(x))
  {
    match x.pc
    case Suspended =>
    case Resuming =>
    case Finishing =>
    case Done(_) =>
    case ToEnqueue =>
    case LateCancel =>
    case _ => SuspendKeeps(x);
  }

  lemma ScopeLocalKeeps(x: B.Job)
    ensures JobKeeps(x, B.ScopeLocal(x))
  {
    match x.scope
    case Swapped =>
    case CallbackWake =>
    case _ =>
  }

  lemma SetKeeps(s: B.State, s': B.State, i: nat, j: nat, x: B.Job)
    requires i < |s.jobs| && JobKeeps(s.jobs[i], x) && s'.jobs == s.jobs[i := x]
    ensures JobKeeps(B.At(s, j), B.At(s', j))
  {
  }

  lemma EnqueueKeeps(s: B.State, i: nat, j: nat)
    requires i < |s.jobs|
    ensures JobKeeps(B.At(s, j), B.At(B.EnqueueApply(s, i, s.jobs[i]), j))
  {
  }

  lemma LateKeeps(s: B.State, i: nat, j: nat)
    requires i < |s.jobs|
    ensures JobKeeps(B.At(s, j), B.At(B.LateApply(s, i, s.jobs[i]), j))
  {
  }

  lemma AwaiterKeeps(s: B.State, i: nat, j: nat)
    requires i < |s.jobs|
    ensures JobKeeps(B.At(s, j), B.At(B.AwaiterApply(s, i), j))
  {
    EnqueueKeeps(s, i, j);
    LateKeeps(s, i, j);
    LocalKeeps(s.jobs[i]);
  }

  lemma ScopeKeeps(s: B.State, i: nat, j: nat)
    requires i < |s.jobs|
    ensures JobKeeps(B.At(s, j), B.At(B.ScopeApply(s, i), j))
  {
    ScopeLocalKeeps(s.jobs[i]);
    SetKeeps(s, B.ScopeApply(s, i), i, j, B.ScopeApply(s, i).jobs[i]);
  }

  lemma StepKeeps(s: B.State, step: B.Step, j: nat)
    requires B.Enabled(s, step)
    ensures JobKeeps(B.At(s, j), B.At(B.Apply(s, step), j))
  {
    match step
    case AwaiterStep(i) => AwaiterKeeps(s, i, j);
    case ScopeStep(i) => ScopeKeeps(s, i, j);
    case _ =>
  }

  lemma WakesOnce(s: B.State, j: nat)
    requires B.Inv(s)
    ensures B.At(s, j).wakes <= B.Count(B.At(s, j).accepted)
  {
    if j < |s.jobs| {
      assert B.JobOk(s.jobs[j], j in s.queue, B.RunningOn(s, j), B.SchedulingOn(s, j));
    }
  }

  lemma JobGrows(s: B.State, step: B.Step, j: nat)
    requires B.Inv(s) && B.Enabled(s, step)
    ensures JobPast(s, j) + JobEvents(s, step, j) == JobPast(B.Apply(s, step), j)
  {
    B.InvStep(s, step);
    StepKeeps(s, step, j);
    WakesOnce(s, j);
    WakesOnce(B.Apply(s, step), j);
  }

  lemma {:induction false} JobRun(s: B.State, steps: seq<B.Step>, j: nat)
    requires B.Inv(s) && B.Legal(s, steps)
    ensures JobPast(s, j) + JobEventsIn(s, steps, j) == JobPast(B.Exec(s, steps), j)
    decreases |steps|
  {
    if steps == [] {
    } else {
      B.InvStep(s, steps[0]);
      JobGrows(s, steps[0], j);
      JobRun(B.Apply(s, steps[0]), steps[1..], j);
      Regroup(JobPast(s, j), JobEvents(s, steps[0], j), JobEventsIn(B.Apply(s, steps[0]), steps[1..], j));
    }
  }

  lemma JobFresh(s: B.State, j: nat)
    requires B.Init(s)
    ensures B.Inv(s) && JobPast(s, j) == []
  {
    B.InitInv(s);
  }

  lemma JobAsPast(s: B.State, steps: seq<B.Step>, j: nat)
    requires B.Init(s) && B.Legal(s, steps)
    ensures JobEventsIn(s, steps, j) == JobPast(B.Exec(s, steps), j)
  {
    JobFresh(s, j);
    JobRun(s, steps, j);
    NothingBefore(JobEventsIn(s, steps, j));
  }

  /** A blocking job parks its coroutine at most once and wakes it at most once, after that;
      and a job that left the queue and is in nobody's hands has woken it. */
  lemma JobIsStay(s: B.State, steps: seq<B.Step>, j: nat)
    requires B.Init(s) && B.Legal(s, steps) && j < |B.Exec(s, steps).jobs|
    ensures JobEventsIn(s, steps, j) <= STAY
    ensures var e := B.Exec(s, steps);
      Park in JobEventsIn(s, steps, j) && j !in e.queue && !B.InHands(e, j) ==> JobEventsIn(s, steps, j) == STAY
  {
    JobAsPast(s, steps, j);
    B.JobResolvesOnce(s, steps, j);
  }

  // ----- a root of the runtime -----

  predicate AtLeaf(p: R.Place) {
    p.ParkedOneshot? || p.ParkedBlocking? || p.InPool? || p.Cancelled?
  }

  /** A worker parks root r at a leaf, or a leaf gives r's handle to the run queue. */
  function RootEvents(s: R.State, step: R.Step, r: nat): seq<Event>
    requires R.Enabled(s, step)
  {
    match step
    case ParkAtOneshot(w) => if s.workers[w].r == r then [Park] else []
    case ParkAtBlocking(w) => if s.workers[w].r == r then [Park] else []
    case WakeOneshot(x) => if x == r then [Wake] else []
    case ScheduleCancelled(x) => if x == r then [Wake] else []
    case PoolDone(p) => if s.pool[p].r == r then [Wake] else []
    case _ => []
  }

  ghost function RootEventsIn(s: R.State, steps: seq<R.Step>, r: nat): seq<Event>
    requires R.Legal(s, steps)
    decreases |steps|
  {
    if steps == [] then [] else RootEvents(s, steps[0], r) + RootEventsIn(R.Apply(s, steps[0]), steps[1..], r)
  }

  /** A park begins a stay at a leaf, a wake ends it in the run queue, and nothing else does. */
  ghost predicate Moves(s: R.State, s': R.State, r: nat, events: seq<Event>) {
    var p, q := R.At(s, r).place, R.At(s', r).place;
    if events == [Park] then !AtLeaf(p) && AtLeaf(q)
    else if events == [Wake] then AtLeaf(p) && q == R.Queued && s'.queue == s.queue + [r]
    else events == [] && AtLeaf(p) == AtLeaf(q)
  }

  lemma ParkMoves(s: R.State, step: R.Step, r: nat)
    requires R.Inv(s) && R.Enabled(s, step) && (step.ParkAtOneshot? || step.ParkAtBlocking?)
    ensures Moves(s, R.Apply(s, step), r, RootEvents(s, step, r))
  {
    assert R.PlaceOk(s, step.w);
  }

  lemma WakeMoves(s: R.State, step: R.Step, r: nat)
    requires R.Inv(s) && R.Enabled(s, step) && (step.WakeOneshot? || step.ScheduleCancelled? || step.PoolDone?)
    ensures Moves(s, R.Apply(s, step), r, RootEvents(s, step, r))
  {
    if step.PoolDone? {
      assert R.PlaceOk(s, step.p);
    }
  }

  lemma BlockingMoves(s: R.State, step: R.Step, r: nat)
    requires R.Inv(s) && R.Enabled(s, step) && (step.CancelBlocking? || step.PoolTake?)
    ensures Moves(s, R.Apply(s, step), r, RootEvents(s, step, r))
  {
    if step.PoolTake? && s.jobs != [] {
      assert s.jobs[0] in s.jobs;
    }
  }

  lemma WorkerMoves(s: R.State, step: R.Step, w: nat, r: nat)
    requires R.Inv(s) && R.Enabled(s, step) && w < |s.workers|
    requires step in {R.WorkerLoad(w), R.WorkerFetch(w), R.ScheduleChild(w), R.Unregister(w), R.DestroyFrame(w)}
    ensures Moves(s, R.WorkerStep(s, w), r, [])
  {
    assert R.PlaceOk(s, w);
    if step.WorkerFetch? && s.queue != [] {
      assert s.queue[0] in s.queue;
    }
  }

  lemma OtherMoves(s: R.State, step: R.Step, r: nat)
    requires R.Inv(s) && R.Enabled(s, step) && !step.WorkerLoad? && !step.WorkerFetch? && !step.ScheduleChild?
    requires !step.Unregister? && !step.DestroyFrame? && !step.ParkAtOneshot? && !step.ParkAtBlocking?
    requires !step.WakeOneshot? && !step.ScheduleCancelled? && !step.PoolDone? && !step.CancelBlocking? && !step.PoolTake?
    ensures Moves(s, R.Apply(s, step), r, [])
  {
  }

  lemma StepMoves(s: R.State, step: R.Step, r: nat)
    requires R.Inv(s) && R.Enabled(s, step)
    ensures Moves(s, R.Apply(s, step), r, RootEvents(s, step, r))
  {
    match step
    case ParkAtOneshot(_) => ParkMoves(s, step, r);
    case ParkAtBlocking(_) => ParkMoves(s, step, r);
    case WakeOneshot(_) => WakeMoves(s, step, r);
    case ScheduleCancelled(_) => WakeMoves(s, step, r);
    case PoolDone(_) => WakeMoves(s, step, r);
    case CancelBlocking(_) => BlockingMoves(s, step, r);
    case PoolTake(_) => BlockingMoves(s, step, r);
    case WorkerLoad(w) => WorkerMoves(s, step, w, r);
    case WorkerFetch(w) => WorkerMoves(s, step, w, r);
    case ScheduleChild(w) => WorkerMoves(s, step, w, r);
    case Unregister(w) => WorkerMoves(s, step, w, r);
    case DestroyFrame(w) => WorkerMoves(s, step, w, r);
    case _ => OtherMoves(s, step, r);
  }

  /** n whole stays, and one more that has not ended if open. */
  function Stays(n: nat, open: bool): seq<Event> {
    if n == 0 then if open then [Park] else [] else STAY + Stays(n - 1, open)
  }

  /** Seen from a leaf, the rest of that stay comes first. */
  ghost predicate After(events: seq<Event>, leaf: bool, n: nat, open: bool) {
    if leaf then [Park] + events == Stays(n, open) else events == Stays(n, open)
  }

  lemma Prolong(event: seq<Event>, events: seq<Event>, leaf: bool, leaf': bool, n: nat, open: bool) returns (m: nat)
    requires After(events, leaf', n, open)
    requires event == (if !leaf && leaf' then [Park] else if leaf && !leaf' then [Wake] else [])
    ensures After(event + events, leaf, m, open)
  {
    m := n;
    if leaf && !leaf' {
      m := n + 1;
      assert [Park] + ([Wake] + events) == STAY + events;
    } else if leaf == leaf' {
      assert [] + events == events;
    }
  }

  lemma {:induction false} StaysFrom(s: R.State, steps: seq<R.Step>, r: nat) returns (n: nat)
    requires R.Inv(s) && R.Legal(s, steps)
    ensures After(RootEventsIn(s, steps, r), AtLeaf(R.At(s, r).place), n, AtLeaf(R.At(R.Exec(s, steps), r).place))
    decreases |steps|
  {
    if steps == [] {
      n := 0;
    } else {
      var s' := R.Apply(s, steps[0]);
      R.InvStep(s, steps[0]);
      StepMoves(s, steps[0], r);
      n := StaysFrom(s', steps[1..], r);
      n := Prolong(RootEvents(s, steps[0], r), RootEventsIn(s', steps[1..], r), AtLeaf(R.At(s, r).place),
                   AtLeaf(R.At(s', r).place), n, AtLeaf(R.At(R.Exec(s, steps), r).place));
    }
  }

  /** Over every run, what a root goes through at its leaves is a sequence of whole stays, one
      park and one wake each, and a park more exactly if it is at a leaf: what OneshotIsStay
      and JobIsStay prove of each leaf. */
  lemma RootStays(s: R.State, steps: seq<R.Step>, r: nat) returns (n: nat)
    requires R.Init(s) && R.Legal(s, steps)
    ensures RootEventsIn(s, steps, r) == Stays(n, AtLeaf(R.At(R.Exec(s, steps), r).place))
  {
    n := StaysFrom(s, steps, r);
  }

  /** And whenever it is at a leaf, the step that takes it further is enabled. */
  lemma WakeIsOpen(s: R.State, r: nat)
    requires R.Inv(s) && r < |s.roots| && AtLeaf(s.roots[r].place)
    ensures match s.roots[r].place
      case ParkedOneshot => R.Enabled(s, R.WakeOneshot(r))
      case ParkedBlocking => R.Enabled(s, R.CancelBlocking(r))
      case Cancelled => R.Enabled(s, R.ScheduleCancelled(r))
      case InPool(p) => R.Enabled(s, R.PoolDone(p)) && s.pool[p].r == r
      case _ => false
  {
    assert R.PlaceOk(s, r);
  }
}
