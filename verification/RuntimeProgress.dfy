/** The runtime gets done: whatever has happened, its destructor can end; and once that is
    past its wait for the roots, it ends on every run. */
module RuntimeProgress {
  import opened Options
  import opened Queues
  import opened RuntimeProtocol
  import opened Sums

  // ----- what is left to do -----

  function ShutdownLeft(s: State): nat {
    match s.shutdown
    case Alive => 6
    case CancelWalk => 5
    case AwaitRoots => 4
    case PoolStop => 3
    case StopFlag => 2
    case JoinWorkers => 1
    case Finished => 0
  }

  /** The steps a worker without a root takes until it is gone, if it is told to stop. */
  function WorkerLeft(pc: WorkerPc, stop: bool): nat {
    match pc
    case Top => if stop then 1 else 3
    case Fetching => 2
    case Exited => 0
    case _ => if stop then 2 else 4
  }

  function PoolLeft(pc: PoolPc): nat {
    if pc.Left? then 0 else 1
  }

  function WorkersLeft(workers: seq<WorkerPc>, stop: bool): seq<int> {
    seq(|workers|, w requires 0 <= w < |workers| => WorkerLeft(workers[w], stop))
  }

  function ThreadsLeft(pool: seq<PoolPc>): seq<int> {
    seq(|pool|, p requires 0 <= p < |pool| => PoolLeft(pool[p]))
  }

  function Left(s: State): int {
    ShutdownLeft(s) + Sum(WorkersLeft(s.workers, s.stop)) + Sum(ThreadsLeft(s.pool))
  }

  lemma {:induction false} SumBounded(s: seq<int>, m: nat)
    requires forall i :: 0 <= i < |s| ==> 0 <= s[i] <= m
    ensures 0 <= Sum(s) <= m * |s|
  {
    if s == [] {
    } else {
      SumBounded(s[1..], m);
    }
  }

  lemma LeftAtMost(s: State)
    ensures 0 <= Left(s) <= ShutdownLeft(s) + (if s.stop then 2 else 4) * |s.workers| + |s.pool|
  {
    SumBounded(WorkersLeft(s.workers, s.stop), if s.stop then 2 else 4);
    SumBounded(ThreadsLeft(s.pool), 1);
  }

  lemma {:induction false} StopLowers(workers: seq<WorkerPc>)
    ensures Sum(WorkersLeft(workers, true)) <= Sum(WorkersLeft(workers, false))
  {
    if workers == [] {
    } else {
      assert WorkersLeft(workers, true)[1..] == WorkersLeft(workers[1..], true);
      assert WorkersLeft(workers, false)[1..] == WorkersLeft(workers[1..], false);
      StopLowers(workers[1..]);
    }
  }

  lemma WorkerSum(workers: seq<WorkerPc>, w: nat, pc: WorkerPc, stop: bool)
    requires w < |workers|
    ensures Sum(WorkersLeft(workers[w := pc], stop)) ==
      Sum(WorkersLeft(workers, stop)) - WorkerLeft(workers[w], stop) + WorkerLeft(pc, stop)
  {
    assert WorkersLeft(workers[w := pc], stop) == WorkersLeft(workers, stop)[w := WorkerLeft(pc, stop)];
    SumUpdate(WorkersLeft(workers, stop), w, WorkerLeft(pc, stop));
  }

  lemma ThreadSum(pool: seq<PoolPc>, p: nat, pc: PoolPc)
    requires p < |pool|
    ensures Sum(ThreadsLeft(pool[p := pc])) == Sum(ThreadsLeft(pool)) - PoolLeft(pool[p]) + PoolLeft(pc)
  {
    assert ThreadsLeft(pool[p := pc]) == ThreadsLeft(pool)[p := PoolLeft(pc)];
    SumUpdate(ThreadsLeft(pool), p, PoolLeft(pc));
  }

  // ----- past the wait -----

  lemma WorkerShrinks(s: State, w: nat)
    requires Inv(s) && PastWait(s) && w < |s.workers|
    requires Enabled(s, WorkerLoad(w)) || Enabled(s, WorkerFetch(w)) || Enabled(s, DestroyFrame(w))
    ensures Left(WorkerStep(s, w)) < Left(s)
  {
    EmptyPastWait(s);
    WorkerSum(s.workers, w, WorkerStep(s, w).workers[w], s.stop);
  }

  lemma NoneLive(s: State, r: nat)
    requires Inv(s) && PastWait(s) && r < |s.roots|
    ensures !Live(s.roots[r].place)
  {
  }

  lemma LeftShrinks(s: State, step: Step)
    requires Inv(s) && PastWait(s) && Enabled(s, step)
    ensures Left(Apply(s, step)) < Left(s) && PastWait(Apply(s, step))
    ensures Apply(s, step).stop == s.stop || step.SetStop?
    ensures |Apply(s, step).workers| == |s.workers| && |Apply(s, step).pool| == |s.pool|
  {
    EmptyPastWait(s);
    match step
    case WorkerLoad(w) => WorkerShrinks(s, w);
    case WorkerFetch(w) => WorkerShrinks(s, w);
    case DestroyFrame(w) => WorkerShrinks(s, w);
    case PoolTake(p) => ThreadSum(s.pool, p, PoolPc.Left);
    case SetStop => StopLowers(s.workers);
    case WakeOneshot(r) => NoneLive(s, r);
    case ScheduleCancelled(r) => NoneLive(s, r);
    case _ =>
  }

  lemma SomeStep(s: State) returns (step: Step)
    requires Inv(s) && PastWait(s) && !s.shutdown.Finished?
    ensures Enabled(s, step)
  {
    EmptyPastWait(s);
    match s.shutdown
    case PoolStop =>
      if p :| 0 <= p < |s.pool| && !s.pool[p].Left? {
        step := PoolTake(p);
      } else {
        step := PoolJoined;
      }
    case StopFlag => step := SetStop;
    case JoinWorkers =>
      if w :| 0 <= w < |s.workers| && !s.workers[w].Exited? {
        step := match s.workers[w]
          case Top => WorkerLoad(w)
          case Fetching => WorkerFetch(w)
          case _ => DestroyFrame(w);
      } else {
        step := WorkersJoined;
      }
  }

  lemma {:induction false} EndsBy(s: State, steps: seq<Step>)
    requires Inv(s) && PastWait(s) && Legal(s, steps)
    ensures Inv(Exec(s, steps)) && PastWait(Exec(s, steps)) && |steps| + Left(Exec(s, steps)) <= Left(s)
    decreases |steps|
  {
    if steps == [] {
    } else {
      InvStep(s, steps[0]);
      LeftShrinks(s, steps[0]);
      EndsBy(Apply(s, steps[0]), steps[1..]);
    }
  }

  /** Past its wait the destructor ends, whatever the others do: a run goes on for at most
      four steps a worker, one a pool thread and three of the destructor, and with the stop
      flag set for two steps a worker and one; and where it cannot go on, the destructor has
      finished. */
  lemma ShutdownEnds(s: State, steps: seq<Step>, more: seq<Step>)
    requires Init(s) && Legal(s, steps) && PastWait(Exec(s, steps)) && Legal(Exec(s, steps), more)
    ensures var e := Exec(s, steps);
      && |more| <= 3 + 4 * |e.workers| + |e.pool|
      && (e.shutdown.JoinWorkers? ==> |more| <= 1 + 2 * |e.workers| + |e.pool|)
    ensures var f := Exec(Exec(s, steps), more); f.shutdown.Finished? || exists step :: Enabled(f, step)
  {
    Reached(s, steps);
    var e := Exec(s, steps);
    EndsBy(e, more);
    LeftAtMost(e);
    LeftAtMost(Exec(e, more));
    if !Exec(e, more).shutdown.Finished? {
      var step := SomeStep(Exec(e, more));
    }
  }

  lemma Before(s: State, step: Step, rest: seq<Step>) returns (steps: seq<Step>)
    requires Enabled(s, step) && Legal(Apply(s, step), rest)
    ensures steps == [step] + rest && Legal(s, steps) && Exec(s, steps) == Exec(Apply(s, step), rest)
  {
    steps := [step] + rest;
    assert steps[1..] == rest;
  }

  lemma {:induction false} FinishPastWait(s: State) returns (steps: seq<Step>)
    requires Inv(s) && PastWait(s)
    ensures Legal(s, steps) && Exec(s, steps).shutdown.Finished?
    decreases Left(s)
  {
    if s.shutdown.Finished? {
      steps := [];
    } else {
      var step := SomeStep(s);
      InvStep(s, step);
      LeftShrinks(s, step);
      LeftAtMost(Apply(s, step));
      steps := FinishPastWait(Apply(s, step));
      steps := Before(s, step, steps);
    }
  }

  // ----- before it -----

  /** How far a root is from its end, on the shortest way there. */
  function RootLeft(x: Root): nat {
    match x.place
    case Registering(_) => 8
    case ParkedBlocking => 7
    case InPool(_) => 6
    case Cancelled => 6
    case ParkedOneshot => 6
    case Queued => 5
    case OnWorker(_) => if x.sent then 3 else 4
    case Ending(_) => 1
    case Destroyed => 0
  }

  function RootsLeft(roots: seq<Root>): seq<int> {
    seq(|roots|, r requires 0 <= r < |roots| => RootLeft(roots[r]))
  }

  lemma RootSum(roots: seq<Root>, r: nat, x: Root)
    requires r < |roots| && RootLeft(x) < RootLeft(roots[r])
    ensures 0 <= Sum(RootsLeft(roots[r := x])) < Sum(RootsLeft(roots))
  {
    assert RootsLeft(roots[r := x]) == RootsLeft(roots)[r := RootLeft(x)];
    SumUpdate(RootsLeft(roots), r, RootLeft(x));
    SumNonNegative(RootsLeft(roots[r := x]));
  }

  /** The destructor goes on, or a root comes nearer to its end, or the first worker comes
      nearer to the run queue. */
  ghost predicate Nearer(s: State, s': State) {
    && |s'.workers| == |s.workers| > 0
    && if s'.shutdown == s.shutdown then
         || 0 <= Sum(RootsLeft(s'.roots)) < Sum(RootsLeft(s.roots))
         || (s'.roots == s.roots && WorkerLeft(s'.workers[0], false) < WorkerLeft(s.workers[0], false))
       else ShutdownLeft(s') < ShutdownLeft(s)
  }

  lemma RootNearer(s: State, s': State, r: nat)
    requires r < |s.roots| && |s'.roots| == |s.roots| && s'.roots == s.roots[r := s'.roots[r]]
    requires RootLeft(s'.roots[r]) < RootLeft(s.roots[r])
    requires s'.shutdown == s.shutdown && |s'.workers| == |s.workers| > 0
    ensures Nearer(s, s')
  {
    RootSum(s.roots, r, s'.roots[r]);
  }

  lemma FetchIsNearer(s: State, w: nat)
    requires Inv(s) && w < |s.workers| && s.workers[w].Fetching? && s.queue != []
    ensures Enabled(s, WorkerFetch(w)) && Nearer(s, Apply(s, WorkerFetch(w)))
  {
    assert s.queue[0] in s.queue && PlaceOk(s, s.queue[0]);
    RootNearer(s, Apply(s, WorkerFetch(w)), s.queue[0]);
  }

  lemma SpawnIsNearer(s: State, w: nat)
    requires Inv(s) && w < |s.workers| && s.workers[w].Spawning?
    ensures Enabled(s, ScheduleChild(w)) && Nearer(s, Apply(s, ScheduleChild(w)))
  {
    assert PlaceOk(s, w);
    RootNearer(s, Apply(s, ScheduleChild(w)), s.workers[w].child);
  }

  /** A worker that has a root, or could fetch one, has something to do. */
  lemma WorkerGoesOn(s: State, w: nat) returns (step: Step)
    requires Inv(s) && !PastWait(s) && w < |s.workers|
    requires InHand(s.workers[w]).Some? || (w == 0 && s.queue != [])
    ensures Enabled(s, step) && Nearer(s, Apply(s, step))
  {
    assert PlaceOk(s, w);
    match s.workers[w]
    case Top => step := WorkerLoad(w);
    case Fetching =>
      step := WorkerFetch(w);
      FetchIsNearer(s, w);
    case Running(r) =>
      step := SendOutcome(w);
      assert PlaceOk(s, r);
      RootNearer(s, Apply(s, step), r);
    case Spawning(_, child) =>
      step := ScheduleChild(w);
      SpawnIsNearer(s, w);
    case Sent(r) =>
      step := Unregister(w);
      RootNearer(s, Apply(s, step), r);
    case Destroying(r) =>
      step := DestroyFrame(w);
      RootNearer(s, Apply(s, step), r);
  }

  lemma RootGoesOn(s: State, r: nat) returns (step: Step)
    requires Inv(s) && s.shutdown.AwaitRoots? && |s.workers| > 0 && r in s.listed
    ensures Enabled(s, step) && Nearer(s, Apply(s, step))
  {
    assert PlaceOk(s, r);
    match s.roots[r].place
    case Registering(spawner) => step := WorkerGoesOn(s, spawner.w);
    case Queued => step := WorkerGoesOn(s, 0);
    case OnWorker(w) => step := WorkerGoesOn(s, w);
    case ParkedOneshot =>
      step := WakeOneshot(r);
      RootNearer(s, Apply(s, step), r);
    case ParkedBlocking =>
      step := CancelBlocking(r);
      RootNearer(s, Apply(s, step), r);
    case InPool(p) =>
      step := PoolDone(p);
      RootNearer(s, Apply(s, step), r);
    case Cancelled =>
      step := ScheduleCancelled(r);
      RootNearer(s, Apply(s, step), r);
  }

  lemma GoesOn(s: State) returns (step: Step)
    requires Inv(s) && !PastWait(s) && |s.workers| > 0
    ensures Enabled(s, step) && Nearer(s, Apply(s, step))
  {
    match s.shutdown
    case Alive =>
      if s.outside.Some? {
        step := OutsideSchedule;
        RootNearer(s, Apply(s, step), s.outside.value);
      } else {
        step := BeginShutdown;
      }
    case CancelWalk => step := WalkDone;
    case AwaitRoots =>
      if s.listed == [] {
        step := RootsDrained;
      } else {
        step := RootGoesOn(s, s.listed[0]);
      }
  }

  lemma RootsNonNegative(s: State)
    ensures Sum(RootsLeft(s.roots)) >= 0
  {
    SumNonNegative(RootsLeft(s.roots));
  }

  lemma {:induction false} FinishFrom(s: State) returns (steps: seq<Step>)
    requires Inv(s) && |s.workers| > 0
    ensures Legal(s, steps) && Exec(s, steps).shutdown.Finished?
    decreases ShutdownLeft(s), Sum(RootsLeft(s.roots)), WorkerLeft(s.workers[0], false)
  {
    if PastWait(s) {
      steps := FinishPastWait(s);
    } else {
      var step := GoesOn(s);
      InvStep(s, step);
      RootsNonNegative(s);
      steps := FinishFrom(Apply(s, step));
      steps := Before(s, step, steps);
    }
  }

  /** Whatever has happened, there is a way to the end of the destructor, on which every root
      finishes: the runtime always has a worker, and no root blocks another for good. */
  lemma CanFinish(s: State, steps: seq<Step>) returns (more: seq<Step>)
    requires Init(s) && Legal(s, steps) && |s.workers| > 0
    ensures Legal(Exec(s, steps), more)
    ensures var f := Exec(Exec(s, steps), more);
      f.shutdown.Finished? && forall r :: 0 <= r < |f.roots| ==> f.roots[r] == Root(Destroyed, true)
  {
    Reached(s, steps);
    SameWorkers(s, steps);
    more := FinishFrom(Exec(s, steps));
    InvRun(Exec(s, steps), more);
    AllDestroyed(Exec(Exec(s, steps), more));
  }

  lemma WorkerStepKeeps(s: State, w: nat)
    requires w < |s.workers|
    ensures |WorkerStep(s, w).workers| == |s.workers| && |WorkerStep(s, w).roots| == |s.roots|
  {
  }

  lemma StepKeepsWorkers(s: State, step: Step)
    requires Enabled(s, step)
    ensures |Apply(s, step).workers| == |s.workers| && |Apply(s, step).roots| >= |s.roots|
  {
    match step
    case WorkerLoad(w) => WorkerStepKeeps(s, w);
    case WorkerFetch(w) => WorkerStepKeeps(s, w);
    case ScheduleChild(w) => WorkerStepKeeps(s, w);
    case Unregister(w) => WorkerStepKeeps(s, w);
    case DestroyFrame(w) => WorkerStepKeeps(s, w);
    case _ =>
  }

  lemma {:induction false} SameWorkers(s: State, steps: seq<Step>)
    requires Legal(s, steps)
    ensures |Exec(s, steps).workers| == |s.workers| && |Exec(s, steps).roots| >= |s.roots|
    decreases |steps|
  {
    if steps == [] {
    } else {
      StepKeepsWorkers(s, steps[0]);
      SameWorkers(Apply(s, steps[0]), steps[1..]);
    }
  }

  /** A worker fetches the first root and, running it, spawns another. */
  lemma RootSpawns(s: State) returns (e: State, steps: seq<Step>)
    requires Init(s) && |s.workers| > 0
    ensures Legal(s, steps) && e == Exec(s, steps) && |e.roots| == 2 && |e.workers| > 0 && e.workers[0] == Spawning(0, 1)
  {
    var s1 := Apply(s, OutsideSpawn);
    var s2 := Apply(s1, OutsideSchedule);
    assert s2.queue == [0] && s2.roots == [Root(Queued, false)];
    var s3 := Apply(s2, WorkerLoad(0));
    var s4 := Apply(s3, WorkerFetch(0));
    e := Apply(s4, SpawnChild(0));
    steps := Before(s4, SpawnChild(0), []);
    steps := Before(s3, WorkerFetch(0), steps);
    steps := Before(s2, WorkerLoad(0), steps);
    steps := Before(s1, OutsideSchedule, steps);
    steps := Before(s, OutsideSpawn, steps);
  }

  /** Whenever a worker runs a root, that can park at a oneshot and be woken, or park at a
      blocking job and be cancelled there; either way it is queued behind all others. */
  lemma ParkAndBack(s: State, steps: seq<Step>, w: nat) returns (oneshot: seq<Step>, blocking: seq<Step>)
    requires Init(s) && Legal(s, steps) && Runs(Exec(s, steps), w)
    ensures var e := Exec(s, steps); var r := e.workers[w].r;
      && Legal(e, oneshot) && Legal(e, blocking)
      && Exec(e, oneshot).queue == e.queue + [r] && Exec(e, blocking).queue == e.queue + [r]
      && Exec(e, oneshot).workers == e.workers[w := Top] && Exec(e, blocking).workers == e.workers[w := Top]
      && Exec(e, blocking).jobs == e.jobs
  {
    Reached(s, steps);
    var e := Exec(s, steps);
    NotPastWait(e, w);
    oneshot := ParkAtOneshotAndBack(e, w);
    blocking := ParkAtBlockingAndBack(e, w);
  }

  lemma NotPastWait(e: State, w: nat)
    requires Inv(e) && Runs(e, w)
    ensures !e.poolStop && e.workers[w].r < |e.roots| && e.workers[w].r !in e.jobs
  {
    assert PlaceOk(e, w);
    if PastWait(e) {
      EmptyPastWait(e);
    }
  }

  lemma ParkAtOneshotAndBack(e: State, w: nat) returns (more: seq<Step>)
    requires Runs(e, w) && e.workers[w].r < |e.roots|
    ensures Legal(e, more)
    ensures Exec(e, more).queue == e.queue + [e.workers[w].r] && Exec(e, more).workers == e.workers[w := Top]
  {
    var r := e.workers[w].r;
    more := Before(Apply(e, ParkAtOneshot(w)), WakeOneshot(r), []);
    more := Before(e, ParkAtOneshot(w), more);
  }

  lemma TakesBack(q: seq<nat>, r: nat)
    requires r !in q
    ensures r in q + [r] && Removed(q + [r], r) == q
  {
    var p := q + [r];
    assert p[|q|] == r && forall i :: 0 <= i < |q| ==> p[i] in q;
    assert IndexOf(p, r) == |q|;
  }

  lemma ParkAtBlockingAndBack(e: State, w: nat) returns (more: seq<Step>)
    requires Runs(e, w) && !e.poolStop && e.workers[w].r < |e.roots| && e.workers[w].r !in e.jobs
    ensures Legal(e, more)
    ensures Exec(e, more).queue == e.queue + [e.workers[w].r] && Exec(e, more).workers == e.workers[w := Top]
    ensures Exec(e, more).jobs == e.jobs
  {
    var r := e.workers[w].r;
    TakesBack(e.jobs, r);
    var e1 := Apply(e, ParkAtBlocking(w));
    var e2 := Apply(e1, CancelBlocking(r));
    more := Before(e2, ScheduleCancelled(r), []);
    more := Before(e1, CancelBlocking(r), more);
    more := Before(e, ParkAtBlocking(w), more);
  }

  /** Whenever a pool thread is idle and a job queued, it can take the first and execute it;
      then the root of that job is queued. */
  lemma PoolServes(s: State, steps: seq<Step>, p: nat) returns (more: seq<Step>)
    requires Init(s) && Legal(s, steps)
    requires var e := Exec(s, steps); p < |e.pool| && e.pool[p].Idle? && e.jobs != []
    ensures var e := Exec(s, steps);
      Legal(e, more) && Exec(e, more).jobs == e.jobs[1..] && Exec(e, more).queue == e.queue + [e.jobs[0]] &&
      Exec(e, more).pool == e.pool
  {
    var e := Exec(s, steps);
    var e1 := Apply(e, PoolTake(p));
    more := Before(e1, PoolDone(p), []);
    more := Before(e, PoolTake(p), more);
  }

  /** A runtime with n workers and m pool threads at its start. */
  lemma Starts(n: nat, m: nat) returns (s: State)
    ensures Init(s) && |s.workers| == n && |s.pool| == m
  {
    s := State([], [], [], false, seq(n, _ => Top), [], false, seq(m, _ => PoolPc.Idle), None, Alive);
  }

  /** A run from the start of a runtime to its end: a root is spawned and spawns another, and
      the rest of it. */
  lemma RootRunsThrough(s: State) returns (begun: seq<Step>, more: seq<Step>)
    requires Init(s) && |s.workers| > 0
    ensures Legal(s, begun) && |Exec(s, begun).roots| == 2
    ensures Legal(Exec(s, begun), more) && Exec(Exec(s, begun), more).shutdown.Finished?
    ensures var f := Exec(Exec(s, begun), more);
      |f.roots| >= 2 && f.roots[0] == Root(Destroyed, true) && f.roots[1] == Root(Destroyed, true)
  {
    var e;
    e, begun := RootSpawns(s);
    more := CanFinish(s, begun);
    SameWorkers(e, more);
  }
}
