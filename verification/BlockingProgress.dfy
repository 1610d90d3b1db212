/** Every co_await of a blocking job comes to its end, as long as the pool has a worker; and
    none is cancelled without a reason. */
module BlockingProgress {
  import opened BlockingProtocol
  import opened Options
  import opened Sums

  // ----- a bound on the steps still to come -----

  function AwaiterLeft(pc: AwaiterPc): nat {
    match pc
    case ToCheck => 13
    case ToArm => 12
    case ToEnqueue => 11
    case Recheck => 7
    case LateCancel => 6
    case LateMark => 5
    case LateWake => 4
    case Suspended => 3
    case Resuming => 2
    case Finishing => 1
    case Done(_) => 0
  }

  function ScopeLeft(pc: ScopePc): nat {
    match pc
    case Open => 6
    case Swapped => 5
    case InCallback => 4
    case CallbackMark => 3
    case CallbackWake => 2
    case Closing => 1
    case Closed => 0
  }

  function WorkerLeft(pc: WorkerPc): nat {
    match pc
    case Running(_) => 3
    case Scheduling(_) => 2
    case Waiting => 1
    case Exited => 0
  }

  function JobLeft(x: Job): nat {
    AwaiterLeft(x.pc) + ScopeLeft(x.scope)
  }

  function JobsLeft(jobs: seq<Job>): seq<int> {
    seq(|jobs|, j requires 0 <= j < |jobs| => JobLeft(jobs[j]))
  }

  function WorkersLeft(workers: seq<WorkerPc>): seq<int> {
    seq(|workers|, w requires 0 <= w < |workers| => WorkerLeft(workers[w]))
  }

  function Left(s: State): int {
    Sum(JobsLeft(s.jobs)) + 3 * |s.queue| + Sum(WorkersLeft(s.workers))
  }

  lemma LeftNonNegative(s: State)
    ensures Left(s) >= 0
  {
    SumNonNegative(JobsLeft(s.jobs));
    SumNonNegative(WorkersLeft(s.workers));
  }

  lemma JobSum(jobs: seq<Job>, j: nat, x: Job)
    requires j < |jobs|
    ensures Sum(JobsLeft(jobs[j := x])) == Sum(JobsLeft(jobs)) - JobLeft(jobs[j]) + JobLeft(x)
  {
    assert JobsLeft(jobs[j := x]) == JobsLeft(jobs)[j := JobLeft(x)];
    SumUpdate(JobsLeft(jobs), j, JobLeft(x));
  }

  lemma WorkerSum(workers: seq<WorkerPc>, w: nat, pc: WorkerPc)
    requires w < |workers|
    ensures Sum(WorkersLeft(workers[w := pc])) == Sum(WorkersLeft(workers)) - WorkerLeft(workers[w]) + WorkerLeft(pc)
  {
    assert WorkersLeft(workers[w := pc]) == WorkersLeft(workers)[w := WorkerLeft(pc)];
    SumUpdate(WorkersLeft(workers), w, WorkerLeft(pc));
  }

  /** Job j goes on by more than the queue grows. */
  ghost predicate JobGoesOn(s: State, s': State, j: nat) {
    && j < |s.jobs| && |s'.jobs| == |s.jobs| && s'.jobs == s.jobs[j := s'.jobs[j]] && s'.workers == s.workers
    && JobLeft(s'.jobs[j]) + 3 * |s'.queue| < JobLeft(s.jobs[j]) + 3 * |s.queue|
  }

  predicate Early(pc: AwaiterPc) {
    pc.ToCheck? || pc.ToArm? || pc.Recheck?
  }

  lemma EarlyGoesOn(x: Job)
    requires Early(x.pc)
    ensures AwaiterLeft(AwaiterLocal(x).pc) < AwaiterLeft(x.pc) && AwaiterLocal(x).scope == x.scope
  {
    match x.pc
    case ToCheck =>
    case ToArm =>
    case Recheck =>
  }

  lemma LateGoesOn(x: Job)
    requires x.pc.LateMark? || x.pc.LateWake? || x.pc.Suspended? || x.pc.Resuming? || x.pc.Finishing?
    ensures AwaiterLeft(AwaiterLocal(x).pc) < AwaiterLeft(x.pc) && AwaiterLocal(x).scope == x.scope
  {
    match x.pc
    case LateMark =>
    case LateWake =>
    case Suspended =>
    case Resuming =>
    case Finishing =>
  }

  lemma CancelGoesOn(x: Job)
    requires x.scope.Open? || x.scope.Swapped?
    ensures ScopeLeft(ScopeLocal(x).scope) < ScopeLeft(x.scope) && ScopeLocal(x).pc == x.pc
  {
  }

  lemma CallbackGoesOn(x: Job)
    requires x.scope.CallbackMark? || x.scope.CallbackWake? || x.scope.Closing?
    ensures ScopeLeft(ScopeLocal(x).scope) < ScopeLeft(x.scope) && ScopeLocal(x).pc == x.pc
  {
  }

  lemma AwaiterGoesOn(s: State, j: nat)
    requires Enabled(s, AwaiterStep(j))
    ensures JobGoesOn(s, AwaiterApply(s, j), j)
  {
    var x := s.jobs[j];
    if Early(x.pc) {
      EarlyGoesOn(x);
    } else if !x.pc.ToEnqueue? && !x.pc.LateCancel? {
      LateGoesOn(x);
    }
  }

  lemma ScopeGoesOn(s: State, j: nat)
    requires Enabled(s, ScopeStep(j))
    ensures JobGoesOn(s, ScopeApply(s, j), j)
  {
    var x := s.jobs[j];
    if x.scope.Open? || x.scope.Swapped? {
      CancelGoesOn(x);
    } else if !x.scope.InCallback? {
      CallbackGoesOn(x);
    }
  }

  lemma WorkerGoesOn(s: State, w: nat)
    requires Enabled(s, WorkerStep(w))
    ensures var s' := WorkerApply(s, w);
      && |s'.workers| == |s.workers| && s'.workers == s.workers[w := s'.workers[w]]
      && WorkerLeft(s'.workers[w]) + 3 * |s'.queue| < WorkerLeft(s.workers[w]) + 3 * |s.queue|
      && JobsLeft(s'.jobs) == JobsLeft(s.jobs)
  {
  }

  /** Everything but the arrival of a job and the stop of the pool. */
  predicate Moves(step: Step) {
    step.AwaiterStep? || step.ScopeStep? || step.WorkerStep?
  }

  lemma LeftShrinks(s: State, step: Step)
    requires Enabled(s, step) && Moves(step)
    ensures Left(Apply(s, step)) < Left(s)
  {
    match step
    case AwaiterStep(j) =>
      AwaiterGoesOn(s, j);
      JobSum(s.jobs, j, Apply(s, step).jobs[j]);
    case ScopeStep(j) =>
      ScopeGoesOn(s, j);
      JobSum(s.jobs, j, Apply(s, step).jobs[j]);
    case WorkerStep(w) =>
      WorkerGoesOn(s, w);
      WorkerSum(s.workers, w, Apply(s, step).workers[w]);
  }

  lemma JobArrives(s: State, does: Returned)
    ensures Left(Apply(s, NewJob(does))) == Left(s) + 19
  {
    assert JobsLeft(s.jobs + [Fresh(does)]) == JobsLeft(s.jobs) + [19];
    SumAppend(JobsLeft(s.jobs), 19);
  }

  function Work(steps: seq<Step>): nat {
    if steps == [] then 0 else Count(Moves(steps[0])) + Work(steps[1..])
  }

  function Arrivals(steps: seq<Step>): nat {
    if steps == [] then 0 else Count(steps[0].NewJob?) + Arrivals(steps[1..])
  }

  lemma {:induction false} WorkBounded(s: State, steps: seq<Step>)
    requires Legal(s, steps)
    ensures Work(steps) + Left(Exec(s, steps)) <= Left(s) + 19 * Arrivals(steps)
    decreases |steps|
  {
    if steps == [] {
    } else {
      match steps[0] {
        case NewJob(does) => JobArrives(s, does);
        case Stop =>
        case _ => LeftShrinks(s, steps[0]);
      }
      WorkBounded(Apply(s, steps[0]), steps[1..]);
    }
  }

  lemma AllWaiting(s: State)
    requires Init(s)
    ensures Left(s) == |s.workers|
  {
    OnesSum(WorkersLeft(s.workers));
  }

  lemma {:induction false} OnesSum(s: seq<int>)
    requires forall i :: 0 <= i < |s| ==> s[i] == 1
    ensures Sum(s) == |s|
  {
    if s == [] {
    } else {
      OnesSum(s[1..]);
    }
  }

  /** No run takes more than nineteen steps a job and one a worker. */
  lemma JobsEnd(s: State, steps: seq<Step>)
    requires Init(s) && Legal(s, steps)
    ensures Work(steps) <= 19 * Arrivals(steps) + |s.workers|
  {
    AllWaiting(s);
    WorkBounded(s, steps);
    LeftNonNegative(Exec(s, steps));
  }

  // ----- where it ends -----

  /** Nothing can happen, but that a job arrives, the pool is stopped or a scope cancelled. */
  ghost predicate Quiet(s: State) {
    && (forall j: nat :: !Enabled(s, AwaiterStep(j)))
    && (forall j: nat :: Enabled(s, ScopeStep(j)) ==> s.jobs[j].scope.Open?)
    && (forall w: nat :: !Enabled(s, WorkerStep(w)))
  }

  lemma QuietWorkers(s: State)
    requires WorkersOk(s) && Quiet(s) && |s.workers| > 0
    ensures s.queue == [] && forall w: nat :: w < |s.workers| ==> s.workers[w] == if s.stop then Exited else Waiting
  {
    assert !Enabled(s, WorkerStep(0));
    forall w: nat | w < |s.workers|
      ensures s.workers[w] == if s.stop then Exited else Waiting
    {
      assert !Enabled(s, WorkerStep(w));
    }
  }

  lemma QuietJob(s: State, j: nat)
    requires Quiet(s) && j < |s.jobs| && j !in s.queue && RunningOn(s, j) == 0 && SchedulingOn(s, j) == 0
    requires JobOk(s.jobs[j], false, 0, 0)
    ensures s.jobs[j].pc.Done?
  {
    assert !Enabled(s, AwaiterStep(j));
    assert Enabled(s, ScopeStep(j)) ==> s.jobs[j].scope.Open?;
  }

  /** When nothing but that can happen, every co_await of a pool that has a worker is done,
      with the value or exception of its job if that ran; and a stopped pool's workers are
      gone. */
  lemma AllDone(s: State, steps: seq<Step>, j: nat)
    requires Init(s) && Legal(s, steps) && |s.workers| > 0 && Quiet(Exec(s, steps)) && j < |Exec(s, steps).jobs|
    ensures var e := Exec(s, steps);
      && e.jobs[j].pc == Done(if e.jobs[j].executed then Some(e.jobs[j].does) else None)
      && (e.stop ==> forall w: nat :: w < |e.workers| ==> e.workers[w].Exited?)
  {
    InitInv(s);
    InvRun(s, steps);
    SameWorkers(s, steps);
    var e := Exec(s, steps);
    QuietWorkers(e);
    NobodysJob(e.workers, j);
    assert JobOk(e.jobs[j], j in e.queue, RunningOn(e, j), SchedulingOn(e, j));
    QuietJob(e, j);
    JobResolvesOnce(s, steps, j);
  }

  lemma StepKeepsWorkers(s: State, step: Step)
    requires Enabled(s, step)
    ensures |Apply(s, step).workers| == |s.workers|
  {
  }

  lemma {:induction false} SameWorkers(s: State, steps: seq<Step>)
    requires Legal(s, steps)
    ensures |Exec(s, steps).workers| == |s.workers|
    decreases |steps|
  {
    if steps == [] {
    } else {
      StepKeepsWorkers(s, steps[0]);
      SameWorkers(Apply(s, steps[0]), steps[1..]);
    }
  }

  // ----- and none is cancelled without a reason -----

  predicate ReasonOk(x: Job, stop: bool) {
    (x.inline ==> x.scopeCancelled || stop) && (x.byCanceller ==> x.scopeCancelled)
  }

  ghost predicate Reasons(s: State) {
    forall j :: 0 <= j < |s.jobs| ==> ReasonOk(s.jobs[j], s.stop)
  }

  lemma EarlyHasReason(x: Job, stop: bool)
    requires Early(x.pc) && ReasonOk(x, stop)
    ensures ReasonOk(AwaiterLocal(x), stop)
  {
    match x.pc
    case ToCheck =>
    case ToArm =>
    case Recheck =>
  }

  lemma LateHasReason(x: Job, stop: bool)
    requires !Early(x.pc) && ReasonOk(x, stop)
    ensures ReasonOk(AwaiterLocal(x), stop)
  {
    match x.pc
    case LateMark =>
    case LateWake =>
    case Suspended =>
    case Resuming =>
    case Finishing =>
    case _ =>
  }

  lemma AwaiterHasReason(s: State, j: nat)
    requires j < |s.jobs| && ReasonOk(s.jobs[j], s.stop) && (s.jobs[j].pc.LateCancel? ==> s.jobs[j].scopeCancelled)
    ensures ReasonOk(AwaiterApply(s, j).jobs[j], s.stop)
  {
    var x := s.jobs[j];
    if Early(x.pc) {
      EarlyHasReason(x, s.stop);
    } else if !x.pc.ToEnqueue? && !x.pc.LateCancel? {
      LateHasReason(x, s.stop);
    }
  }

  lemma ScopeLocalHasReason(x: Job, stop: bool)
    requires ReasonOk(x, stop)
    ensures ReasonOk(ScopeLocal(x), stop)
  {
    match x.scope
    case Open =>
    case Swapped =>
    case CallbackMark =>
    case CallbackWake =>
    case Closing =>
    case _ =>
  }

  lemma ScopeHasReason(s: State, j: nat)
    requires j < |s.jobs| && ReasonOk(s.jobs[j], s.stop) && (s.jobs[j].scope.InCallback? ==> s.jobs[j].scopeCancelled)
    ensures ReasonOk(ScopeApply(s, j).jobs[j], s.stop)
  {
    if !s.jobs[j].scope.InCallback? {
      ScopeLocalHasReason(s.jobs[j], s.stop);
    }
  }

  lemma ReasonsStep(s: State, step: Step)
    requires Inv(s) && Reasons(s) && Enabled(s, step)
    ensures Reasons(Apply(s, step))
  {
    match step
    case AwaiterStep(j) =>
      assert JobOk(s.jobs[j], j in s.queue, RunningOn(s, j), SchedulingOn(s, j));
      AwaiterGoesOn(s, j);
      AwaiterHasReason(s, j);
    case ScopeStep(j) =>
      assert JobOk(s.jobs[j], j in s.queue, RunningOn(s, j), SchedulingOn(s, j));
      ScopeGoesOn(s, j);
      ScopeHasReason(s, j);
    case WorkerStep(w) => WorkerHasReason(s, w);
    case _ =>
  }

  lemma WorkerHasReason(s: State, w: nat)
    requires Reasons(s) && w < |s.workers|
    ensures Reasons(WorkerApply(s, w))
  {
  }

  lemma {:induction false} ReasonsRun(s: State, steps: seq<Step>)
    requires Inv(s) && Reasons(s) && Legal(s, steps)
    ensures Reasons(Exec(s, steps))
    decreases |steps|
  {
    if steps == [] {
    } else {
      ReasonsStep(s, steps[0]);
      InvStep(s, steps[0]);
      ReasonsRun(Apply(s, steps[0]), steps[1..]);
    }
  }

  /** A co_await reports cancelled only if its scope was cancelled or the pool stopped. */
  lemma CancelledForReason(s: State, steps: seq<Step>, j: nat)
    requires Init(s) && Legal(s, steps) && j < |Exec(s, steps).jobs| && Exec(s, steps).jobs[j].pc == Done(None)
    ensures var e := Exec(s, steps); e.jobs[j].scopeCancelled || e.stop
  {
    InitInv(s);
    ReasonsRun(s, steps);
    InvRun(s, steps);
    var e := Exec(s, steps);
    assert ReasonOk(e.jobs[j], e.stop);
    assert JobOk(e.jobs[j], j in e.queue, RunningOn(e, j), SchedulingOn(e, j));
  }
}
