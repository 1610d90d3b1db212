/** spawn_blocking and its pool as a transition system: any number of jobs, each awaited by
    one coroutine under its own cancel scope, and any fixed number of workers. Critical
    sections of the pool's and of a scope's mutex, atomic accesses, running a job and
    handing its handle to the runtime are one step each. A coroutine is not resumed before
    its await_suspend has returned. A job without a scope is one whose scope is never
    cancelled. */
module BlockingProtocol {
  import opened GuardStates
  import opened Options
  import opened Queues
  import opened Sums

  /** How a job's function ends. */
  datatype Returned = Value(v: nat) | Raised(e: nat)

  /** Where the awaiting coroutine is; the Late states are the second cancellation point,
      after the job was queued. Done(None) is a co_await that reports cancelled. */
  datatype AwaiterPc =
    | ToCheck
    | ToArm
    | ToEnqueue
    | Recheck
    | LateCancel
    | LateMark
    | LateWake
    | Suspended
    | Resuming
    | Finishing
    | Done(got: Option<Returned>)

  datatype ScopePc = Open | Swapped | InCallback | CallbackMark | CallbackWake | Closing | Closed

  /** byWorker and byCanceller say who took the job out of the queue; does is how its
      function ends when it is run. */
  datatype Job = Job(
    pc: AwaiterPc,
    scope: ScopePc,
    scopeCancelled: bool,
    guard: GuardState,
    accepted: bool,
    ticket: nat,
    byWorker: bool,
    byCanceller: bool,
    executed: bool,
    outcome: Option<Returned>,
    cancelled: bool,
    inline: bool,
    wakes: nat,
    does: Returned)

  datatype WorkerPc = Waiting | Running(job: nat) | Scheduling(job: nat) | Exited

  datatype State = State(
    queue: seq<nat>,
    stop: bool,
    jobs: seq<Job>,
    workers: seq<WorkerPc>,
    popped: seq<nat>,
    tickets: nat)

  datatype Step =
    | NewJob(does: Returned)
    | AwaiterStep(j: nat)
    | ScopeStep(j: nat)
    | WorkerStep(w: nat)
    | Stop

  function Fresh(does: Returned): Job {
    Job(ToCheck, Open, false, Idle, false, 0, false, false, false, None, false, false, 0, does)
  }

  function At(s: State, j: nat): Job {
    if j < |s.jobs| then s.jobs[j] else Fresh(Value(0))
  }

  function SetJob(s: State, j: nat, x: Job): State {
    if j < |s.jobs| then s.(jobs := s.jobs[j := x]) else s
  }

  predicate ScopeLocked(x: Job) {
    !x.scope.Open? && !x.scope.Closed?
  }

  function GoOn(x: Job): Job {
    x.(pc := Resuming, inline := true)
  }

  function EnqueueApply(s: State, j: nat, x: Job): State {
    if s.stop then SetJob(s, j, GoOn(x))
    else SetJob(s.(queue := s.queue + [j], tickets := s.tickets + 1), j, x.(pc := Recheck, accepted := true,
        ticket := s.tickets))
  }

  function LateApply(s: State, j: nat, x: Job): State {
    if j in s.queue then SetJob(s.(queue := Removed(s.queue, j)), j, x.(pc := LateMark, byCanceller := true))
    else SetJob(s, j, x.(pc := Suspended))
  }

  function CallbackApply(s: State, j: nat, x: Job): State {
    if j in s.queue then SetJob(s.(queue := Removed(s.queue, j)), j, x.(scope := CallbackMark, byCanceller := true))
    else SetJob(s, j, x.(scope := Closing))
  }

  /** The awaiter steps that touch only their own job. */
  function AwaiterLocal(x: Job): Job {
    match x.pc
    case ToCheck => if x.scopeCancelled then GoOn(x) else x.(pc := ToArm)
    case ToArm => if x.scopeCancelled then GoOn(x) else x.(pc := ToEnqueue, guard := Armed)
    case Recheck => x.(pc := if x.scopeCancelled then LateCancel else Suspended)
    case LateMark => x.(pc := LateWake, cancelled := true)
    case LateWake => x.(pc := Suspended, wakes := x.wakes + 1)
    case Suspended => x.(pc := Resuming)
    case Resuming => x.(pc := Finishing, guard := if x.guard == Armed then Disarmed else x.guard)
    case Finishing => x.(pc := Done(if !x.accepted || x.cancelled then None else x.outcome))
    case _ => x
  }

  function ScopeLocal(x: Job): Job {
    match x.scope
    case Open => x.(scope := Swapped, scopeCancelled := true)
    case Swapped => if x.guard == Armed then x.(guard := Fired, scope := InCallback) else x.(scope := Closing)
    case CallbackMark => x.(scope := CallbackWake, cancelled := true)
    case CallbackWake => x.(scope := Closing, wakes := x.wakes + 1)
    case Closing => x.(scope := Closed)
    case _ => x
  }

  /** execute: the outcome goes to the control block. */
  function Ran(x: Job): Job {
    x.(executed := true, outcome := Some(x.does))
  }

  function WorkerApply(s: State, w: nat): State
    requires w < |s.workers|
  {
    match s.workers[w]
    case Waiting =>
      if s.queue != [] then
        var j := s.queue[0];
        SetJob(s.(queue := s.queue[1..], workers := s.workers[w := Running(j)], popped := s.popped + [j]), j,
               At(s, j).(byWorker := true))
      else s.(workers := s.workers[w := Exited])
    case Running(j) => SetJob(s.(workers := s.workers[w := Scheduling(j)]), j, Ran(At(s, j)))
    case Scheduling(j) => SetJob(s.(workers := s.workers[w := Waiting]), j, At(s, j).(wakes := At(s, j).wakes + 1))
    case Exited => s
  }

  predicate AwaiterCan(x: Job) {
    && !x.pc.Done?
    && (x.pc.Suspended? ==> x.wakes > 0)
    && (x.pc.ToArm? || x.pc.Resuming? ==> !ScopeLocked(x))
  }

  predicate Enabled(s: State, step: Step) {
    match step
    case NewJob(_) => true
    case AwaiterStep(j) => j < |s.jobs| && AwaiterCan(s.jobs[j])
    case ScopeStep(j) => j < |s.jobs| && !s.jobs[j].scope.Closed?
    case WorkerStep(w) =>
      w < |s.workers| && !s.workers[w].Exited? && (s.workers[w].Waiting? ==> s.queue != [] || s.stop)
    case Stop => true
  }

  function AwaiterApply(s: State, j: nat): State {
    var x := At(s, j);
    if x.pc.ToEnqueue? then EnqueueApply(s, j, x)
    else if x.pc.LateCancel? then LateApply(s, j, x)
    else SetJob(s, j, AwaiterLocal(x))
  }

  function ScopeApply(s: State, j: nat): State {
    var x := At(s, j);
    if x.scope.InCallback? then CallbackApply(s, j, x) else SetJob(s, j, ScopeLocal(x))
  }

  function Apply(s: State, step: Step): State
    requires Enabled(s, step)
  {
    match step
    case NewJob(does) => s.(jobs := s.jobs + [Fresh(does)])
    case AwaiterStep(j) => AwaiterApply(s, j)
    case ScopeStep(j) => ScopeApply(s, j)
    case WorkerStep(w) => WorkerApply(s, w)
    case Stop => s.(stop := true)
  }

  predicate Init(s: State) {
    && s.queue == [] && !s.stop && s.jobs == [] && s.popped == [] && s.tickets == 0
    && forall w :: 0 <= w < |s.workers| ==> s.workers[w].Waiting?
  }

  ghost predicate Legal(s: State, steps: seq<Step>)
    decreases |steps|
  {
    steps == [] || (Enabled(s, steps[0]) && Legal(Apply(s, steps[0]), steps[1..]))
  }

  ghost function Exec(s: State, steps: seq<Step>): State
    requires Legal(s, steps)
    decreases |steps|
  {
    if steps == [] then s else Exec(Apply(s, steps[0]), steps[1..])
  }

  // ----- the invariant -----

  function Count(b: bool): nat {
    if b then 1 else 0
  }

  function RunningList(workers: seq<WorkerPc>, j: nat): seq<int> {
    seq(|workers|, i requires 0 <= i < |workers| => Count(workers[i] == Running(j)))
  }

  function SchedulingList(workers: seq<WorkerPc>, j: nat): seq<int> {
    seq(|workers|, i requires 0 <= i < |workers| => Count(workers[i] == Scheduling(j)))
  }

  /** Workers that run job j, and workers about to hand its handle over. */
  function RunningOn(s: State, j: nat): int {
    Sum(RunningList(s.workers, j))
  }

  function SchedulingOn(s: State, j: nat): int {
    Sum(SchedulingList(s.workers, j))
  }

  /** One job: who has it, given whether it is queued and how many workers run or
      schedule it. */
  ghost predicate JobOk(x: Job, queued: bool, running: int, scheduling: int) {
    // exactly one place
    && Count(queued) + running + scheduling + Count(x.scope.CallbackMark? || x.scope.CallbackWake?)
         + Count(x.pc.LateMark? || x.pc.LateWake?) + x.wakes == Count(x.accepted)
    && running >= 0 && scheduling >= 0
    // exactly one taker
    && Count(queued) + Count(x.byWorker) + Count(x.byCanceller) == Count(x.accepted)
    && (x.byWorker ==> running + scheduling + x.wakes == 1)
    && (x.byCanceller ==> running == 0 && scheduling == 0)
    && (x.executed <==> x.byWorker && running == 0)
    && x.outcome == (if x.executed then Some(x.does) else None)
    && (x.cancelled <==> x.byCanceller && !x.scope.CallbackMark? && !x.pc.LateMark?)
    // the phases
    && (x.accepted <==> !x.inline && !x.pc.ToCheck? && !x.pc.ToArm? && !x.pc.ToEnqueue?)
    && (x.pc.ToCheck? || x.pc.ToArm? ==> x.guard == Idle)
    && (x.guard == Idle ==> x.pc.ToCheck? || x.pc.ToArm? || x.inline)
    && (x.inline ==> x.pc.Resuming? || x.pc.Finishing? || x.pc.Done?)
    && (!x.inline && (x.pc.Resuming? || x.pc.Finishing? || x.pc.Done?) ==> x.wakes == 1)
    && (x.pc.Done? ==> x.pc.got == if !x.accepted || x.byCanceller then None else Some(x.does))
    // the scope
    && (!x.scope.Open? <==> x.scopeCancelled)
    && (x.scope.InCallback? || x.scope.CallbackMark? || x.scope.CallbackWake? ==> x.guard == Fired)
    && (x.guard == Fired ==> x.scopeCancelled && !x.scope.Swapped?)
    && (x.guard == Armed ==> x.scope.Open? || x.scope.Swapped?)
    && (x.guard == Disarmed ==> x.pc.Finishing? || x.pc.Done?)
    && (x.pc.Finishing? || x.pc.Done? ==>
          x.guard != Armed && !x.scope.InCallback? && !x.scope.CallbackMark? && !x.scope.CallbackWake?)
    && (x.pc.ToEnqueue? || x.pc.Recheck? || x.pc.LateCancel? || x.pc.Suspended? ==> x.guard == Armed || x.guard == Fired)
    && (x.pc.LateCancel? || x.pc.LateMark? || x.pc.LateWake? ==> x.scopeCancelled)
    // a cancellation is not lost
    && (queued && (x.scope.Closing? || x.scope.Closed?) ==> x.pc.Recheck? || x.pc.LateCancel?)
  }

  ghost predicate JobsOk(s: State) {
    forall j :: 0 <= j < |s.jobs| ==> JobOk(s.jobs[j], j in s.queue, RunningOn(s, j), SchedulingOn(s, j))
  }

  ghost predicate InRange(q: seq<nat>, s: State) {
    forall i :: 0 <= i < |q| ==> q[i] < |s.jobs|
  }

  ghost predicate Ascending(q: seq<nat>, s: State) {
    forall i, k :: 0 <= i < k < |q| ==> At(s, q[i]).ticket < At(s, q[k]).ticket
  }

  /** What was popped, followed by what is queued, is in the order of acceptance. */
  ghost predicate OrderOk(s: State) {
    && InRange(s.popped + s.queue, s)
    && Ascending(s.popped + s.queue, s)
    && (forall j :: 0 <= j < |s.jobs| && s.jobs[j].accepted ==> s.jobs[j].ticket < s.tickets)
    && (forall j :: 0 <= j < |s.jobs| ==> (s.jobs[j].byWorker <==> j in s.popped))
  }

  ghost predicate WorkersOk(s: State) {
    && (forall w :: 0 <= w < |s.workers| && s.workers[w].Running? ==> s.workers[w].job < |s.jobs|)
    && (forall w :: 0 <= w < |s.workers| && s.workers[w].Scheduling? ==> s.workers[w].job < |s.jobs|)
    && (forall w :: 0 <= w < |s.workers| && s.workers[w].Exited? ==> s.stop && s.queue == [])
  }

  ghost predicate Inv(s: State) {
    JobsOk(s) && OrderOk(s) && WorkersOk(s)
  }

  lemma AwaiterLocalOk(x: Job, queued: bool, running: int, scheduling: int)
    requires JobOk(x, queued, running, scheduling) && AwaiterCan(x) && !x.pc.ToEnqueue? && !x.pc.LateCancel?
    ensures JobOk(AwaiterLocal(x), queued, running, scheduling)
  {
  }

  lemma ScopeLocalOk(x: Job, queued: bool, running: int, scheduling: int)
    requires JobOk(x, queued, running, scheduling) && !x.scope.InCallback? && !x.scope.Closed?
    ensures JobOk(ScopeLocal(x), queued, running, scheduling)
  {
  }

  // ----- steps of one job that leave the queue alone -----

  /** Job j changes, keeping its ticket and its taker; nothing else does. */
  lemma LocalInv(s: State, j: nat, x: Job)
    requires Inv(s) && j < |s.jobs|
    requires x.ticket == s.jobs[j].ticket && x.accepted == s.jobs[j].accepted && x.byWorker == s.jobs[j].byWorker
    requires JobOk(x, j in s.queue, RunningOn(s, j), SchedulingOn(s, j))
    ensures Inv(SetJob(s, j, x))
  {
    var s' := SetJob(s, j, x);
    forall i | 0 <= i < |s'.jobs|
      ensures JobOk(s'.jobs[i], i in s'.queue, RunningOn(s', i), SchedulingOn(s', i))
    {
      assert JobOk(s.jobs[i], i in s.queue, RunningOn(s, i), SchedulingOn(s, i));
    }
    assert forall i: nat :: At(s', i).ticket == At(s, i).ticket;
  }

  // ----- steps that edit the queue -----

  lemma EnqueueInv(s: State, j: nat)
    requires Inv(s) && j < |s.jobs| && s.jobs[j].pc.ToEnqueue? && !s.stop
    ensures Inv(EnqueueApply(s, j, s.jobs[j]))
  {
    var s' := EnqueueApply(s, j, s.jobs[j]);
    assert JobOk(s.jobs[j], j in s.queue, RunningOn(s, j), SchedulingOn(s, j));
    assert j !in s.queue && j !in s.popped;
    forall i | 0 <= i < |s'.jobs|
      ensures JobOk(s'.jobs[i], i in s'.queue, RunningOn(s', i), SchedulingOn(s', i))
    {
      assert JobOk(s.jobs[i], i in s.queue, RunningOn(s, i), SchedulingOn(s, i));
    }
    EnqueueOrder(s, s', j);
  }

  lemma EnqueueOrder(s: State, s': State, j: nat)
    requires OrderOk(s) && j < |s.jobs| && j !in s.queue && j !in s.popped && !s.jobs[j].byWorker
    requires forall i :: 0 <= i < |s.jobs| && i in s.popped + s.queue ==> s.jobs[i].accepted
    requires s'.popped == s.popped && s'.queue == s.queue + [j] && s'.tickets == s.tickets + 1
    requires |s'.jobs| == |s.jobs| && s'.jobs == s.jobs[j := s'.jobs[j]]
    requires s'.jobs[j].ticket == s.tickets && !s'.jobs[j].byWorker
    ensures OrderOk(s')
  {
    var q := s.popped + s.queue;
    assert s'.popped + s'.queue == q + [j];
    forall i | 0 <= i < |q|
      ensures At(s', q[i]).ticket == At(s, q[i]).ticket < s.tickets
    {
      assert q[i] in q;
    }
  }

  lemma QueueDistinct(s: State)
    requires OrderOk(s)
    ensures Distinct(s.popped + s.queue) && Distinct(s.queue)
  {
    var q := s.popped + s.queue;
    forall i, k | 0 <= i < k < |q|
      ensures q[i] != q[k]
    {
      assert At(s, q[i]).ticket < At(s, q[k]).ticket;
    }
    forall i, k | 0 <= i < k < |s.queue|
      ensures s.queue[i] != s.queue[k]
    {
      assert q[|s.popped| + i] == s.queue[i] && q[|s.popped| + k] == s.queue[k];
    }
  }

  /** A canceller erases job j and takes it over. */
  lemma EraseInv(s: State, j: nat, x: Job)
    requires Inv(s) && j < |s.jobs| && j in s.queue
    requires x.ticket == s.jobs[j].ticket && x.accepted == s.jobs[j].accepted && x.byWorker == s.jobs[j].byWorker
    requires JobOk(x, false, RunningOn(s, j), SchedulingOn(s, j))
    ensures Inv(SetJob(s.(queue := Removed(s.queue, j)), j, x))
  {
    var s' := SetJob(s.(queue := Removed(s.queue, j)), j, x);
    QueueDistinct(s);
    WithoutMembers(s.queue, IndexOf(s.queue, j));
    forall i | 0 <= i < |s'.jobs|
      ensures JobOk(s'.jobs[i], i in s'.queue, RunningOn(s', i), SchedulingOn(s', i))
    {
      assert JobOk(s.jobs[i], i in s.queue, RunningOn(s, i), SchedulingOn(s, i));
    }
    EraseOrder(s, s', IndexOf(s.queue, j));
  }

  lemma EraseOrder(s: State, s': State, k: nat)
    requires OrderOk(s) && k < |s.queue| && s'.queue == Without(s.queue, k)
    requires s'.popped == s.popped && s'.tickets == s.tickets && |s'.jobs| == |s.jobs|
    requires forall i :: 0 <= i < |s.jobs| ==>
      s'.jobs[i].ticket == s.jobs[i].ticket && s'.jobs[i].accepted == s.jobs[i].accepted
          && s'.jobs[i].byWorker == s.jobs[i].byWorker
    ensures OrderOk(s')
  {
    var q, q' := s.popped + s.queue, s'.popped + s'.queue;
    var m := |s.popped| + k;
    assert forall i :: 0 <= i < |q'| ==> q'[i] == q[if i < m then i else i + 1];
    assert forall i: nat :: At(s', i).ticket == At(s, i).ticket;
  }

  // ----- steps of the workers -----

  lemma WorkerChange(s: State, w: nat, pc: WorkerPc, j: nat)
    requires w < |s.workers|
    ensures Sum(RunningList(s.workers[w := pc], j)) == RunningOn(s,
        j) - Count(s.workers[w] == Running(j)) + Count(pc == Running(j))
    ensures Sum(SchedulingList(s.workers[w := pc], j)) == SchedulingOn(s,
        j) - Count(s.workers[w] == Scheduling(j)) + Count(pc == Scheduling(j))
  {
    assert RunningList(s.workers[w := pc], j) == RunningList(s.workers, j)[w := Count(pc == Running(j))];
    SumUpdate(RunningList(s.workers, j), w, Count(pc == Running(j)));
    assert SchedulingList(s.workers[w := pc], j) == SchedulingList(s.workers, j)[w := Count(pc == Scheduling(j))];
    SumUpdate(SchedulingList(s.workers, j), w, Count(pc == Scheduling(j)));
  }

  lemma PopOrder(s: State, s': State, j: nat)
    requires OrderOk(s) && s.queue != [] && j == s.queue[0] && j < |s.jobs|
    requires s'.queue == s.queue[1..] && s'.popped == s.popped + [j] && s'.tickets == s.tickets
    requires s'.jobs == s.jobs[j := s.jobs[j].(byWorker := true)]
    ensures OrderOk(s')
  {
    assert s'.popped + s'.queue == s.popped + s.queue;
    assert forall i: nat :: At(s', i).ticket == At(s, i).ticket;
  }

  lemma PopInv(s: State, w: nat)
    requires Inv(s) && w < |s.workers| && s.workers[w].Waiting? && s.queue != []
    ensures Inv(WorkerApply(s, w))
  {
    var s' := WorkerApply(s, w);
    var j := s.queue[0];
    assert (s.popped + s.queue)[|s.popped|] == j;
    QueueDistinct(s);
    assert forall i :: i in s.queue[1..] <==> i in s.queue && i != j by {
      WithoutMembers(s.queue, 0);
      assert Without(s.queue, 0) == s.queue[1..];
    }
    forall i | 0 <= i < |s'.jobs|
      ensures JobOk(s'.jobs[i], i in s'.queue, RunningOn(s', i), SchedulingOn(s', i))
    {
      WorkerChange(s, w, Running(j), i);
      assert JobOk(s.jobs[i], i in s.queue, RunningOn(s, i), SchedulingOn(s, i));
    }
    PopOrder(s, s', j);
  }

  /** What a worker does to the job it has taken. */
  lemma WorkedOk(x: Job, queued: bool, running: int, scheduling: int)
    requires JobOk(x, queued, running, scheduling)
    ensures running >= 1 ==> JobOk(Ran(x), queued, running - 1, scheduling + 1)
    ensures scheduling >= 1 ==> JobOk(x.(wakes := x.wakes + 1), queued, running, scheduling - 1)
  {
  }

  lemma WorkInv(s: State, w: nat)
    requires Inv(s) && w < |s.workers| && (s.workers[w].Running? || s.workers[w].Scheduling?)
    ensures Inv(WorkerApply(s, w))
  {
    var s' := WorkerApply(s, w);
    forall i | 0 <= i < |s.jobs|
      ensures JobOk(s'.jobs[i], i in s'.queue, RunningOn(s', i), SchedulingOn(s', i))
    {
      WorkJob(s, w, i);
    }
    WorkOrder(s, w);
  }

  lemma WorkJob(s: State, w: nat, i: nat)
    requires JobsOk(s) && w < |s.workers| && (s.workers[w].Running? || s.workers[w].Scheduling?) && i < |s.jobs|
    ensures var s' := WorkerApply(s, w);
      |s'.jobs| == |s.jobs| && JobOk(s'.jobs[i], i in s'.queue, RunningOn(s', i), SchedulingOn(s', i))
  {
    WorkerChange(s, w, WorkerApply(s, w).workers[w], i);
    OthersNonNegative(s, w, i);
    WorkedOk(s.jobs[i], i in s.queue, RunningOn(s, i), SchedulingOn(s, i));
  }

  lemma WorkOrder(s: State, w: nat)
    requires OrderOk(s) && WorkersOk(s) && w < |s.workers| && (s.workers[w].Running? || s.workers[w].Scheduling?)
    ensures OrderOk(WorkerApply(s, w)) && WorkersOk(WorkerApply(s, w))
  {
    assert forall i: nat :: At(WorkerApply(s, w), i).ticket == At(s, i).ticket;
  }

  lemma OthersNonNegative(s: State, w: nat, j: nat)
    requires w < |s.workers|
    ensures RunningOn(s, j) >= Count(s.workers[w] == Running(j))
    ensures SchedulingOn(s, j) >= Count(s.workers[w] == Scheduling(j))
  {
    SumOne(RunningList(s.workers, j), w);
    SumOne(SchedulingList(s.workers, j), w);
  }

  lemma ExitInv(s: State, w: nat)
    requires Inv(s) && w < |s.workers| && s.workers[w].Waiting? && s.queue == [] && s.stop
    ensures Inv(WorkerApply(s, w))
  {
    var s' := WorkerApply(s, w);
    forall i | 0 <= i < |s'.jobs|
      ensures JobOk(s'.jobs[i], i in s'.queue, RunningOn(s', i), SchedulingOn(s', i))
    {
      WorkerChange(s, w, Exited, i);
      assert JobOk(s.jobs[i], i in s.queue, RunningOn(s, i), SchedulingOn(s, i));
    }
    assert forall i: nat :: At(s', i).ticket == At(s, i).ticket;
  }

  // ----- every step -----

  lemma AwaiterInv(s: State, j: nat)
    requires Inv(s) && Enabled(s, AwaiterStep(j))
    ensures Inv(AwaiterApply(s, j))
  {
    var x := s.jobs[j];
    assert JobOk(x, j in s.queue, RunningOn(s, j), SchedulingOn(s, j));
    if x.pc.ToEnqueue? {
      if s.stop {
        LocalInv(s, j, GoOn(x));
      } else {
        EnqueueInv(s, j);
      }
    } else if x.pc.LateCancel? {
      if j in s.queue {
        EraseInv(s, j, x.(pc := LateMark, byCanceller := true));
      } else {
        LocalInv(s, j, x.(pc := Suspended));
      }
    } else {
      AwaiterLocalOk(x, j in s.queue, RunningOn(s, j), SchedulingOn(s, j));
      LocalInv(s, j, AwaiterLocal(x));
    }
  }

  lemma ScopeInv(s: State, j: nat)
    requires Inv(s) && Enabled(s, ScopeStep(j))
    ensures Inv(ScopeApply(s, j))
  {
    var x := s.jobs[j];
    assert JobOk(x, j in s.queue, RunningOn(s, j), SchedulingOn(s, j));
    if x.scope.InCallback? {
      if j in s.queue {
        EraseInv(s, j, x.(scope := CallbackMark, byCanceller := true));
      } else {
        LocalInv(s, j, x.(scope := Closing));
      }
    } else {
      ScopeLocalOk(x, j in s.queue, RunningOn(s, j), SchedulingOn(s, j));
      LocalInv(s, j, ScopeLocal(x));
    }
  }

  lemma NewJobInv(s: State, does: Returned)
    requires Inv(s)
    ensures Inv(Apply(s, NewJob(does)))
  {
    var s' := Apply(s, NewJob(does));
    var n := |s.jobs|;
    NewJobOrder(s, s', does);
    forall i | 0 <= i <= n
      ensures JobOk(s'.jobs[i], i in s'.queue, RunningOn(s', i), SchedulingOn(s', i))
    {
      if i == n {
        SumZero(RunningList(s.workers, n));
        SumZero(SchedulingList(s.workers, n));
      } else {
        assert JobOk(s.jobs[i], i in s.queue, RunningOn(s, i), SchedulingOn(s, i));
      }
    }
  }

  lemma NewJobOrder(s: State, s': State, does: Returned)
    requires OrderOk(s) && s' == s.(jobs := s.jobs + [Fresh(does)])
    ensures OrderOk(s') && |s.jobs| !in s.queue
  {
    var q := s.popped + s.queue;
    assert forall i :: 0 <= i < |q| ==> q[i] < |s.jobs| && At(s', q[i]) == At(s, q[i]);
    assert |s.jobs| !in q;
    assert forall j :: j in s.popped || j in s.queue ==> j in q;
  }

  lemma StopInv(s: State)
    requires Inv(s)
    ensures Inv(s.(stop := true))
  {
    var s' := s.(stop := true);
    forall i | 0 <= i < |s'.jobs|
      ensures JobOk(s'.jobs[i], i in s'.queue, RunningOn(s', i), SchedulingOn(s', i))
    {
      assert JobOk(s.jobs[i], i in s.queue, RunningOn(s, i), SchedulingOn(s, i));
    }
    assert forall i: nat :: At(s', i) == At(s, i);
  }

  lemma InvStep(s: State, step: Step)
    requires Inv(s) && Enabled(s, step)
    ensures Inv(Apply(s, step))
  {
    match step
    case NewJob(does) => NewJobInv(s, does);
    case AwaiterStep(j) => AwaiterInv(s, j);
    case ScopeStep(j) => ScopeInv(s, j);
    case WorkerStep(w) =>
      if s.workers[w].Running? || s.workers[w].Scheduling? {
        WorkInv(s, w);
      } else if s.workers[w].Waiting? {
        if s.queue != [] {
          PopInv(s, w);
        } else {
          ExitInv(s, w);
        }
      }
    case Stop => StopInv(s);
  }

  lemma {:induction false} InvRun(s: State, steps: seq<Step>)
    requires Inv(s) && Legal(s, steps)
    ensures Inv(Exec(s, steps)) && |Exec(s, steps).workers| == |s.workers|
    decreases |steps|
  {
    if steps == [] {
    } else {
      InvStep(s, steps[0]);
      InvRun(Apply(s, steps[0]), steps[1..]);
    }
  }

  // ----- main results -----

  /** Someone took job j out of the queue and has not yet handed its handle over. */
  predicate Cancelling(x: Job) {
    x.scope.CallbackMark? || x.scope.CallbackWake? || x.pc.LateMark? || x.pc.LateWake?
  }

  ghost predicate InHands(s: State, j: nat) {
    || (exists w :: 0 <= w < |s.workers| && (s.workers[w] == Running(j) || s.workers[w] == Scheduling(j)))
    || Cancelling(At(s, j))
  }

  lemma NobodysJob(workers: seq<WorkerPc>, j: nat)
    ensures NonNegative(RunningList(workers, j)) && NonNegative(SchedulingList(workers, j))
    ensures (forall w :: 0 <= w < |workers| ==> workers[w] != Running(j)) <==> Sum(RunningList(workers, j)) == 0
    ensures (forall w :: 0 <= w < |workers| ==> workers[w] != Scheduling(j)) <==> Sum(SchedulingList(workers, j)) == 0
  {
    var r, q := RunningList(workers, j), SchedulingList(workers, j);
    if w :| 0 <= w < |workers| && workers[w] == Running(j) {
      SumOne(r, w);
    } else {
      SumZero(r);
    }
    if w :| 0 <= w < |workers| && workers[w] == Scheduling(j) {
      SumOne(q, w);
    } else {
      SumZero(q);
    }
  }

  /** An accepted job is queued, or was popped by one worker, or erased by one canceller;
      its function runs exactly if a worker popped it; its handle is handed over exactly
      once, as soon as whoever took the job is done with it; and the co_await yields what the
      function returned or raised if it ran, and reports cancelled exactly if it never did. */
  lemma JobResolvesOnce(s: State, steps: seq<Step>, j: nat)
    requires Init(s) && Legal(s, steps) && j < |Exec(s, steps).jobs|
    ensures var e := Exec(s, steps); var x := e.jobs[j];
      && Count(j in e.queue) + Count(x.byWorker) + Count(x.byCanceller) == Count(x.accepted)
      && x.wakes == Count(x.accepted && j !in e.queue && !InHands(e, j))
      && (x.wakes == 1 ==> (x.executed <==> x.byWorker) && (x.cancelled <==> x.byCanceller))
      && (x.executed ==> x.byWorker)
      && (x.inline ==> x.wakes == 0 && !x.executed)
      && (x.pc.Done? ==> x.pc.got == if x.executed then Some(x.does) else None)
  {
    InitInv(s);
    InvRun(s, steps);
    var e := Exec(s, steps);
    assert JobOk(e.jobs[j], j in e.queue, RunningOn(e, j), SchedulingOn(e, j));
    NobodysJob(e.workers, j);
  }

  lemma InitInv(s: State)
    requires Init(s)
    ensures Inv(s)
  {
    assert s.popped + s.queue == [];
  }

  /** Once await_resume has disarmed the guard, its callback neither runs nor can run: what it
      reads may go. */
  lemma NoLateCallback(s: State, steps: seq<Step>, j: nat)
    requires Init(s) && Legal(s, steps) && j < |Exec(s, steps).jobs|
    requires var x := Exec(s, steps).jobs[j]; x.pc.Finishing? || x.pc.Done?
    ensures var x := Exec(s, steps).jobs[j];
      x.guard != Armed && !x.scope.InCallback? && !x.scope.CallbackMark? && !x.scope.CallbackWake?
  {
    InitInv(s);
    InvRun(s, steps);
    var e := Exec(s, steps);
    assert JobOk(e.jobs[j], j in e.queue, RunningOn(e, j), SchedulingOn(e, j));
  }

  /** Cancellation is not lost: when the winning cancel and await_suspend have both
      finished, the job is not queued, wherever between them the job was queued. */
  lemma CancellationNotLost(s: State, steps: seq<Step>, j: nat)
    requires Init(s) && Legal(s, steps) && j < |Exec(s, steps).jobs|
    requires var x := Exec(s, steps).jobs[j];
      x.scope.Closed? && (x.pc.Suspended? || x.pc.Resuming? || x.pc.Finishing? || x.pc.Done?)
    ensures j !in Exec(s, steps).queue
  {
    InitInv(s);
    InvRun(s, steps);
    var e := Exec(s, steps);
    assert JobOk(e.jobs[j], j in e.queue, RunningOn(e, j), SchedulingOn(e, j));
  }

  ghost predicate WorkersGone(s: State) {
    forall w :: 0 <= w < |s.workers| ==> s.workers[w].Exited?
  }

  /** Nothing is queued; every accepted job was executed or erased by its canceller, not
      both, and was handed over once, unless its canceller is just about to. */
  ghost predicate Drained(s: State) {
    && s.queue == []
    && forall j :: 0 <= j < |s.jobs| && s.jobs[j].accepted ==>
         var x := s.jobs[j]; x.executed != x.byCanceller && x.wakes == Count(!Cancelling(x)) && (Cancelling(x) ==> x.byCanceller)
  }

  /** When all workers of a pool that has any are gone, the pool is stopped and drained. */
  lemma PoolDrains(s: State, steps: seq<Step>)
    requires Init(s) && Legal(s, steps) && |s.workers| > 0 && WorkersGone(Exec(s, steps))
    ensures Exec(s, steps).stop && Drained(Exec(s, steps))
  {
    InitInv(s);
    InvRun(s, steps);
    WorkersStay(s, steps);
    var e := Exec(s, steps);
    assert e.workers[0].Exited?;
    forall j | 0 <= j < |e.jobs| && e.jobs[j].accepted
      ensures var x := e.jobs[j];
        x.executed != x.byCanceller && x.wakes == Count(!Cancelling(x)) && (Cancelling(x) ==> x.byCanceller)
    {
      NobodysJob(e.workers, j);
      assert JobOk(e.jobs[j], j in e.queue, RunningOn(e, j), SchedulingOn(e, j));
    }
  }

  lemma {:induction false} WorkersStay(s: State, steps: seq<Step>)
    requires Legal(s, steps)
    ensures |Exec(s, steps).workers| == |s.workers|
    decreases |steps|
  {
    if steps == [] {
    } else {
      WorkersStay(Apply(s, steps[0]), steps[1..]);
    }
  }

  /** A run of a pool of size zero that is stopped with a job in its queue. */
  lemma NeverDrained() returns (s: State, steps: seq<Step>)
    ensures Init(s) && s.workers == [] && Legal(s, steps)
    ensures Exec(s, steps).stop && Exec(s, steps).queue == [0]
  {
    s := State([], false, [], [], [], 0);
    var does := Value(0);
    var s1 := Apply(s, NewJob(does));
    var s2 := Apply(s1, AwaiterStep(0));
    var s3 := Apply(s2, AwaiterStep(0));
    var s4 := Apply(s3, AwaiterStep(0));
    assert s4.queue == [0];
    steps := [];
    steps := Then(s4, Stop, steps);
    steps := Then(s3, AwaiterStep(0), steps);
    steps := Then(s2, AwaiterStep(0), steps);
    steps := Then(s1, AwaiterStep(0), steps);
    steps := Then(s, NewJob(does), steps);
  }

  lemma Then(s: State, step: Step, rest: seq<Step>) returns (steps: seq<Step>)
    requires Enabled(s, step) && Legal(Apply(s, step), rest)
    ensures Legal(s, steps) && Exec(s, steps) == Exec(Apply(s, step), rest)
  {
    steps := [step] + rest;
    assert steps[1..] == rest;
  }

  /** The drain: every stopped pool of n workers that are all gone is drained, if and only
      if n is positive. */
  lemma DrainNeedsWorker(n: nat)
    ensures n > 0 <==> forall s, steps ::
      Init(s) && |s.workers| == n && Legal(s, steps) && Exec(s, steps).stop && WorkersGone(Exec(s, steps)) ==>
        Drained(Exec(s, steps))
  {
    if n > 0 {
      forall s, steps |
        Init(s) && |s.workers| == n && Legal(s, steps) && Exec(s, steps).stop && WorkersGone(Exec(s, steps))
        ensures Drained(Exec(s, steps))
      {
        PoolDrains(s, steps);
      }
    } else {
      var s, steps := NeverDrained();
      WorkersStay(s, steps);
    }
  }

  /** Jobs are dequeued in the order in which they were accepted. */
  lemma DequeuedInOrder(s: State, steps: seq<Step>, i: nat, k: nat)
    requires Init(s) && Legal(s, steps) && i < k < |Exec(s, steps).popped|
    ensures var e := Exec(s, steps); At(e, e.popped[i]).ticket < At(e, e.popped[k]).ticket
    ensures var e := Exec(s, steps); forall j :: j in e.queue ==> At(e, e.popped[k]).ticket < At(e, j).ticket
  {
    InitInv(s);
    InvRun(s, steps);
    var e := Exec(s, steps);
    var q := e.popped + e.queue;
    assert q[i] == e.popped[i] && q[k] == e.popped[k];
    forall j | j in e.queue
      ensures At(e, e.popped[k]).ticket < At(e, j).ticket
    {
      var m :| 0 <= m < |e.queue| && e.queue[m] == j;
      assert q[|e.popped| + m] == j;
    }
  }

  /** A stopped pool accepts nothing more: the tickets given out stay the same. */
  lemma {:induction false} NothingAfterStop(s: State, steps: seq<Step>)
    requires Legal(s, steps) && s.stop
    ensures Exec(s, steps).tickets == s.tickets && Exec(s, steps).stop
    decreases |steps|
  {
    if steps == [] {
    } else {
      NothingAfterStop(Apply(s, steps[0]), steps[1..]);
    }
  }

  ghost predicate NoneExecuted(s: State) {
    forall i :: 0 <= i < |s.jobs| ==> !s.jobs[i].executed
  }

  lemma NoneExecutedStep(s: State, step: Step)
    requires NoneExecuted(s) && s.workers == [] && Enabled(s, step)
    ensures NoneExecuted(Apply(s, step)) && Apply(s, step).workers == []
  {
    match step
    case AwaiterStep(j) => AwaiterExecutesNone(s, j);
    case ScopeStep(j) => ScopeExecutesNone(s, j);
    case _ =>
  }

  lemma AwaiterKeepsExecuted(x: Job)
    ensures AwaiterLocal(x).executed == x.executed
  {
  }

  lemma ScopeKeepsExecuted(x: Job)
    ensures ScopeLocal(x).executed == x.executed
  {
  }

  lemma AwaiterExecutesNone(s: State, j: nat)
    requires NoneExecuted(s)
    ensures NoneExecuted(AwaiterApply(s, j)) && AwaiterApply(s, j).workers == s.workers
  {
    var x, s' := At(s, j), AwaiterApply(s, j);
    AwaiterKeepsExecuted(x);
    assert j < |s.jobs| ==> s'.jobs == s.jobs[j := s'.jobs[j]] && !s'.jobs[j].executed;
  }

  lemma ScopeExecutesNone(s: State, j: nat)
    requires NoneExecuted(s)
    ensures NoneExecuted(ScopeApply(s, j)) && ScopeApply(s, j).workers == s.workers
  {
    var x, s' := At(s, j), ScopeApply(s, j);
    ScopeKeepsExecuted(x);
    assert j < |s.jobs| ==> s'.jobs == s.jobs[j := s'.jobs[j]] && !s'.jobs[j].executed;
  }

  /** The drain needs a worker: a pool without any executes nothing, ever. */
  lemma {:induction false} NoWorkerNoExecution(s: State, steps: seq<Step>)
    requires Legal(s, steps) && s.workers == [] && NoneExecuted(s)
    ensures NoneExecuted(Exec(s, steps))
    decreases |steps|
  {
    if steps == [] {
    } else {
      NoneExecutedStep(s, steps[0]);
      NoWorkerNoExecution(Apply(s, steps[0]), steps[1..]);
    }
  }

  // ----- handed over while await_suspend still runs -----

  predicate InSuspend(pc: AwaiterPc) {
    pc.ToArm? || pc.ToEnqueue? || pc.Recheck? || pc.LateCancel? || pc.LateMark? || pc.LateWake?
  }

  /** A job's handle is with the runtime while await_suspend still has to write and read the
      awaiter if and only if await_suspend is between the enqueue and its own attempt to erase
      the job, and the job has left the queue and everybody's hands. */
  lemma HandedOverEarly(s: State, steps: seq<Step>, j: nat)
    requires Init(s) && Legal(s, steps) && j < |Exec(s, steps).jobs|
    ensures var e := Exec(s, steps); var x := e.jobs[j];
      InSuspend(x.pc) && x.wakes > 0 <==> (x.pc.Recheck? || x.pc.LateCancel?) && j !in e.queue && !InHands(e, j)
  {
    InitInv(s);
    InvRun(s, steps);
    var e := Exec(s, steps);
    assert JobOk(e.jobs[j], j in e.queue, RunningOn(e, j), SchedulingOn(e, j));
    JobResolvesOnce(s, steps, j);
  }

  /** It does occur: a worker takes, runs and hands over a job at once. */
  lemma HandedOverEarlyRun(does: Returned) returns (s: State, steps: seq<Step>)
    ensures Init(s) && Legal(s, steps)
    ensures var x := At(Exec(s, steps), 0); InSuspend(x.pc) && x.wakes == 1
  {
    s := State([], false, [], [Waiting], [], 0);
    var s1 := Apply(s, NewJob(does));
    var s2 := Apply(s1, AwaiterStep(0));
    var s3 := Apply(s2, AwaiterStep(0));
    var s4 := Apply(s3, AwaiterStep(0));
    assert s4.queue == [0] && s4.jobs[0].pc == Recheck;
    var s5 := Apply(s4, WorkerStep(0));
    var s6 := Apply(s5, WorkerStep(0));
    assert s6.workers == [Scheduling(0)] && s6.jobs[0].pc == Recheck && s6.jobs[0].wakes == 0;
    steps := Then(s6, WorkerStep(0), []);
    steps := Then(s5, WorkerStep(0), steps);
    steps := Then(s4, WorkerStep(0), steps);
    steps := Then(s3, AwaiterStep(0), steps);
    steps := Then(s2, AwaiterStep(0), steps);
    steps := Then(s1, AwaiterStep(0), steps);
    steps := Then(s, NewJob(does), steps);
  }
}
