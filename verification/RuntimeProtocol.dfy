/** The runtime from spawn to shutdown as a transition system: root tasks, the run queue,
    the workers, the blocking pool as a leaf, and the destructor. A step is one critical
    section, one atomic access, or one stretch of user code up to its next await. A root
    parked at a leaf is given to the run queue once (for the oneshot and the blocking
    leaves this is proved in OneshotProtocol and BlockingProtocol), and only after its
    await_suspend has returned. Nothing outside the runtime spawns during the destructor. */
module RuntimeProtocol {
  import opened Options
  import opened Queues

  datatype Spawner = Outside | ByWorker(w: nat)

  /** Where a root's coroutine is. Registering: it is in the root list, and its spawner has
      not scheduled it yet. Ending: its worker is past unregister_root. */
  datatype Place =
    | Registering(spawner: Spawner)
    | Queued
    | OnWorker(w: nat)
    | ParkedOneshot
    | ParkedBlocking
    | InPool(p: nat)
    | Cancelled
    | Ending(w: nat)
    | Destroyed

  /** sent: the outcome went to the root's sender; the frame owns that sender. */
  datatype Root = Root(place: Place, sent: bool)

  datatype WorkerPc =
    | Top
    | Fetching
    | Running(r: nat)
    | Spawning(r: nat, child: nat)
    | Sent(r: nat)
    | Destroying(r: nat)
    | Exited

  datatype PoolPc = Idle | Executing(r: nat) | Left

  datatype Shutdown = Alive | CancelWalk | AwaitRoots | PoolStop | StopFlag | JoinWorkers | Finished

  datatype State = State(
    roots: seq<Root>,
    listed: seq<nat>,
    queue: seq<nat>,
    stop: bool,
    workers: seq<WorkerPc>,
    jobs: seq<nat>,
    poolStop: bool,
    pool: seq<PoolPc>,
    outside: Option<nat>,
    shutdown: Shutdown)

  datatype Step =
    | OutsideSpawn
    | OutsideSchedule
    | WorkerLoad(w: nat)
    | WorkerFetch(w: nat)
    | SpawnChild(w: nat)
    | ScheduleChild(w: nat)
    | ParkAtOneshot(w: nat)
    | ParkAtBlocking(w: nat)
    | SendOutcome(w: nat)
    | Unregister(w: nat)
    | DestroyFrame(w: nat)
    | WakeOneshot(r: nat)
    | CancelBlocking(r: nat)
    | ScheduleCancelled(r: nat)
    | PoolTake(p: nat)
    | PoolDone(p: nat)
    | BeginShutdown
    | WalkDone
    | RootsDrained
    | PoolJoined
    | SetStop
    | WorkersJoined

  function At(s: State, r: nat): Root {
    if r < |s.roots| then s.roots[r] else Root(Destroyed, true)
  }

  function Move(s: State, r: nat, p: Place): State {
    if r < |s.roots| then s.(roots := s.roots[r := s.roots[r].(place := p)]) else s
  }

  function SetWorker(s: State, w: nat, pc: WorkerPc): State
    requires w < |s.workers|
  {
    s.(workers := s.workers[w := pc])
  }

  predicate Runs(s: State, w: nat) {
    w < |s.workers| && s.workers[w].Running?
  }

  predicate Enabled(s: State, step: Step) {
    match step
    case OutsideSpawn => s.shutdown.Alive? && s.outside == None
    case OutsideSchedule => s.outside.Some?
    case WorkerLoad(w) => w < |s.workers| && s.workers[w].Top?
    case WorkerFetch(w) => w < |s.workers| && s.workers[w].Fetching? && (s.queue != [] || s.stop)
    case SpawnChild(w) => Runs(s, w)
    case ScheduleChild(w) => w < |s.workers| && s.workers[w].Spawning?
    case ParkAtOneshot(w) => Runs(s, w)
    case ParkAtBlocking(w) => Runs(s, w) && !s.poolStop
    case SendOutcome(w) => Runs(s, w)
    case Unregister(w) => w < |s.workers| && s.workers[w].Sent?
    case DestroyFrame(w) => w < |s.workers| && s.workers[w].Destroying?
    case WakeOneshot(r) => r < |s.roots| && s.roots[r].place.ParkedOneshot?
    case CancelBlocking(r) => r in s.jobs
    case ScheduleCancelled(r) => r < |s.roots| && s.roots[r].place.Cancelled?
    case PoolTake(p) => p < |s.pool| && s.pool[p].Idle? && (s.jobs != [] || s.poolStop)
    case PoolDone(p) => p < |s.pool| && s.pool[p].Executing?
    case BeginShutdown => s.shutdown.Alive? && s.outside == None
    case WalkDone => s.shutdown.CancelWalk?
    case RootsDrained => s.shutdown.AwaitRoots? && s.listed == []
    case PoolJoined => s.shutdown.PoolStop? && forall p :: 0 <= p < |s.pool| ==> s.pool[p].Left?
    case SetStop => s.shutdown.StopFlag?
    case WorkersJoined => s.shutdown.JoinWorkers? && forall w :: 0 <= w < |s.workers| ==> s.workers[w].Exited?
  }

  /** schedule: the handle goes to the back of the run queue. */
  function Schedule(s: State, r: nat): State {
    Move(s.(queue := s.queue + [r]), r, Queued)
  }

  /** A new root, registered and not yet scheduled. */
  function Register(s: State, spawner: Spawner): State {
    s.(roots := s.roots + [Root(Registering(spawner), false)], listed := [|s.roots|] + s.listed)
  }

  function WorkerStep(s: State, w: nat): State
    requires w < |s.workers|
  {
    match s.workers[w]
    case Top => SetWorker(s, w, if s.stop then Exited else Fetching)
    case Fetching =>
      if s.queue == [] then SetWorker(s, w, Top)
      else Move(SetWorker(s.(queue := s.queue[1..]), w, Running(s.queue[0])), s.queue[0], OnWorker(w))
    case Spawning(r, child) => Schedule(SetWorker(s, w, Running(r)), child)
    case Sent(r) => Move(SetWorker(s.(listed := Removed(s.listed, r)), w, Destroying(r)), r, Ending(w))
    case Destroying(r) => Move(SetWorker(s, w, Top), r, Destroyed)
    case _ => s
  }

  function Apply(s: State, step: Step): State
    requires Enabled(s, step)
  {
    match step
    case OutsideSpawn => Register(s, Outside).(outside := Some(|s.roots|))
    case OutsideSchedule => Schedule(s.(outside := None), s.outside.value)
    case WorkerLoad(w) => WorkerStep(s, w)
    case WorkerFetch(w) => WorkerStep(s, w)
    case SpawnChild(w) => SetWorker(Register(s, ByWorker(w)), w, Spawning(s.workers[w].r, |s.roots|))
    case ScheduleChild(w) => WorkerStep(s, w)
    case ParkAtOneshot(w) => Move(SetWorker(s, w, Top), s.workers[w].r, ParkedOneshot)
    case ParkAtBlocking(w) =>
      Move(SetWorker(s.(jobs := s.jobs + [s.workers[w].r]), w, Top), s.workers[w].r, ParkedBlocking)
    case SendOutcome(w) =>
      var r := s.workers[w].r;
      var s1 := SetWorker(s, w, Sent(r));
      if r < |s.roots| then s1.(roots := s.roots[r := s.roots[r].(sent := true)]) else s1
    case Unregister(w) => WorkerStep(s, w)
    case DestroyFrame(w) => WorkerStep(s, w)
    case WakeOneshot(r) => Schedule(s, r)
    case CancelBlocking(r) => Move(s.(jobs := Removed(s.jobs, r)), r, Cancelled)
    case ScheduleCancelled(r) => Schedule(s, r)
    case PoolTake(p) =>
      if s.jobs == [] then s.(pool := s.pool[p := Left])
      else Move(s.(jobs := s.jobs[1..], pool := s.pool[p := Executing(s.jobs[0])]), s.jobs[0], InPool(p))
    case PoolDone(p) => Schedule(s.(pool := s.pool[p := Idle]), s.pool[p].r)
    case BeginShutdown => s.(shutdown := CancelWalk)
    case WalkDone => s.(shutdown := AwaitRoots)
    case RootsDrained => s.(shutdown := PoolStop, poolStop := true)
    case PoolJoined => s.(shutdown := StopFlag)
    case SetStop => s.(shutdown := JoinWorkers, stop := true)
    case WorkersJoined => s.(shutdown := Finished)
  }

  predicate Init(s: State) {
    && s.roots == [] && s.listed == [] && s.queue == [] && s.jobs == [] && s.outside == None
    && !s.stop && !s.poolStop && s.shutdown.Alive?
    && (forall w :: 0 <= w < |s.workers| ==> s.workers[w].Top?)
    && (forall p :: 0 <= p < |s.pool| ==> s.pool[p].Idle?)
  }

  ghost predicate Legal(s: State, steps: seq<Step>)
    decreases |steps|
  {
    steps == [] || (Enabled(s, steps[0]) && Legal(Apply(s, steps[0]), steps[1..]))
  }

  ghost function Exec(s: State, steps: seq<Step>): State
    requires Legal(s, steps)
    decreases |steps|
  {
    if steps == [] then s else Exec(Apply(s, steps[0]), steps[1..])
  }

  // ----- the invariant: the places are what the structures say -----

  predicate Live(p: Place) {
    !p.Ending? && !p.Destroyed?
  }

  ghost predicate Lists(q: seq<nat>, s: State, p: Place) {
    && Distinct(q)
    && (forall r :: r in q ==> r < |s.roots|)
    && (forall r :: 0 <= r < |s.roots| ==> (s.roots[r].place == p <==> r in q))
  }

  ghost predicate LiveOk(s: State) {
    && Distinct(s.listed)
    && (forall r :: r in s.listed ==> r < |s.roots|)
    && (forall r :: 0 <= r < |s.roots| ==> (Live(s.roots[r].place) <==> r in s.listed))
  }

  /** What each worker has in hand is placed with it. */
  ghost predicate WorkerOk(s: State, w: nat)
    requires w < |s.workers|
  {
    match s.workers[w]
    case Running(r) => r < |s.roots| && s.roots[r].place == OnWorker(w)
    case Spawning(r, child) =>
      && r < |s.roots| && s.roots[r].place == OnWorker(w)
      && child < |s.roots| && s.roots[child].place == Registering(ByWorker(w))
    case Sent(r) => r < |s.roots| && s.roots[r].place == OnWorker(w) && s.roots[r].sent
    case Destroying(r) => r < |s.roots| && s.roots[r].place == Ending(w)
    case Exited => s.stop
    case _ => true
  }

  ghost predicate PoolOk(s: State, p: nat)
    requires p < |s.pool|
  {
    match s.pool[p]
    case Executing(r) => r < |s.roots| && s.roots[r].place == InPool(p)
    case Left => s.poolStop
    case Idle => true
  }

  /** And each place holds what is placed there; a root is on the way out once it has sent. */
  ghost predicate RootOk(s: State, r: nat)
    requires r < |s.roots|
  {
    match s.roots[r].place
    case OnWorker(w) => w < |s.workers|
        && if s.roots[r].sent then s.workers[w] == Sent(r)
           else s.workers[w] == Running(r) || (s.workers[w].Spawning? && s.workers[w].r == r)
    case Ending(w) => w < |s.workers| && s.workers[w] == Destroying(r) && s.roots[r].sent
    case InPool(p) => p < |s.pool| && s.pool[p] == Executing(r) && !s.roots[r].sent
    case Registering(spawner) =>
      && !s.roots[r].sent
      && if spawner.Outside? then s.outside == Some(r)
         else spawner.w < |s.workers| && s.workers[spawner.w].Spawning? && s.workers[spawner.w].child == r
    case Destroyed => s.roots[r].sent
    case _ => !s.roots[r].sent
  }

  predicate PastWait(s: State) {
    s.shutdown.PoolStop? || s.shutdown.StopFlag? || s.shutdown.JoinWorkers? || s.shutdown.Finished?
  }

  /** The worker, the pool thread and the root with one number. */
  ghost predicate PlaceOk(s: State, i: nat) {
    && (i < |s.workers| ==> WorkerOk(s, i))
    && (i < |s.pool| ==> PoolOk(s, i))
    && (i < |s.roots| ==> RootOk(s, i))
  }

  ghost predicate PlacesOk(s: State) {
    && (forall i: nat :: PlaceOk(s, i))
    && (s.outside.Some? ==> s.outside.value < |s.roots| && s.roots[s.outside.value].place == Registering(Outside))
  }

  ghost predicate ShutdownOk(s: State) {
    && (PastWait(s) ==> s.listed == [])
    && (s.poolStop <==> PastWait(s))
    && (s.stop <==> s.shutdown.JoinWorkers? || s.shutdown.Finished?)
    && (s.outside.Some? ==> s.shutdown.Alive?)
    && (s.shutdown.Finished? ==> forall w :: 0 <= w < |s.workers| ==> s.workers[w].Exited?)
  }

  ghost predicate ListsOk(s: State) {
    Lists(s.queue, s, Queued) && Lists(s.jobs, s, ParkedBlocking) && LiveOk(s)
  }

  ghost predicate Inv(s: State) {
    ListsOk(s) && PlacesOk(s) && ShutdownOk(s)
  }

  // ----- every step keeps the invariant -----

  /** q' is q, except that r is in it exactly if now says so. */
  ghost predicate Only(q: seq<nat>, q': seq<nat>, r: nat, now: bool) {
    Distinct(q') && forall i :: i in q' <==> (if i == r then now else i in q)
  }

  /** Root r changes its place, and the three lists follow. */
  lemma RootMoves(s: State, s': State, r: nat)
    requires ListsOk(s) && r < |s.roots| && |s'.roots| == |s.roots|
    requires forall i :: 0 <= i < |s.roots| && i != r ==> s'.roots[i].place == s.roots[i].place
    requires Only(s.queue, s'.queue, r, s'.roots[r].place == Queued)
    requires Only(s.jobs, s'.jobs, r, s'.roots[r].place == ParkedBlocking)
    requires Only(s.listed, s'.listed, r, Live(s'.roots[r].place))
    ensures ListsOk(s')
  {
  }

  /** No root moves, and the lists stay. */
  lemma RootsStay(s: State, s': State)
    requires ListsOk(s)
    requires s'.roots == s.roots && s'.queue == s.queue && s'.jobs == s.jobs && s'.listed == s.listed
    ensures ListsOk(s')
  {
  }

  lemma RootArrives(s: State, s': State, spawner: Spawner)
    requires ListsOk(s)
    requires s'.roots == s.roots + [Root(Registering(spawner), false)] && s'.listed == [|s.roots|] + s.listed
    requires s'.queue == s.queue && s'.jobs == s.jobs
    ensures ListsOk(s')
  {
    assert forall i :: 0 <= i < |s.listed| ==> s.listed[i] in s.listed;
    assert forall r :: r in s'.listed <==> r == |s.roots| || r in s.listed;
  }

  lemma TakeFront(q: seq<nat>)
    requires q != [] && Distinct(q)
    ensures Only(q, q[1..], q[0], false) && q[0] in q
  {
    WithoutMembers(q, 0);
    assert q[1..] == Without(q, 0);
  }

  lemma TakeOut(q: seq<nat>, r: nat)
    requires Distinct(q) && r in q
    ensures Only(q, Removed(q, r), r, false)
  {
    WithoutMembers(q, IndexOf(q, r));
  }

  lemma OutsideInv(s: State, step: Step)
    requires Inv(s) && Enabled(s, step) && (step.OutsideSpawn? || step.OutsideSchedule?)
    ensures Inv(Apply(s, step))
  {
    var s' := Apply(s, step);
    if step.OutsideSpawn? {
      RootArrives(s, s', Outside);
    } else {
      RootMoves(s, s', s.outside.value);
    }
    forall i: nat
      ensures PlaceOk(s', i)
    {
      assert PlaceOk(s, i);
    }
  }

  lemma LoadInv(s: State, w: nat)
    requires Inv(s) && Enabled(s, WorkerLoad(w))
    ensures Inv(WorkerStep(s, w))
  {
    var s' := WorkerStep(s, w);
    RootsStay(s, s');
    forall i: nat
      ensures PlaceOk(s', i)
    {
      assert PlaceOk(s, i);
    }
  }

  lemma FetchPlaces(s: State, s': State, w: nat)
    requires PlacesOk(s) && Enabled(s, WorkerFetch(w)) && s' == WorkerStep(s, w)
    requires s.queue != [] ==> s.queue[0] < |s.roots| && s.roots[s.queue[0]].place == Queued
    ensures PlacesOk(s')
  {
    forall i: nat
      ensures PlaceOk(s', i)
    {
      assert PlaceOk(s, i);
    }
  }

  lemma FetchInv(s: State, w: nat)
    requires Inv(s) && Enabled(s, WorkerFetch(w))
    ensures Inv(WorkerStep(s, w))
  {
    var s' := WorkerStep(s, w);
    if s.queue == [] {
      FetchPlaces(s, s', w);
      RootsStay(s, s');
    } else {
      TakeFront(s.queue);
      FetchPlaces(s, s', w);
      RootMoves(s, s', s.queue[0]);
    }
  }

  lemma SpawnChildInv(s: State, w: nat)
    requires Inv(s) && Enabled(s, SpawnChild(w))
    ensures Inv(Apply(s, SpawnChild(w)))
  {
    var s' := Apply(s, SpawnChild(w));
    assert PlaceOk(s, w);
    RootArrives(s, s', ByWorker(w));
    forall i: nat
      ensures PlaceOk(s', i)
    {
      assert PlaceOk(s, i);
    }
  }

  lemma ScheduleChildPlaces(s: State, s': State, w: nat)
    requires PlacesOk(s) && Enabled(s, ScheduleChild(w)) && s' == WorkerStep(s, w)
    ensures PlacesOk(s') && s.workers[w].child < |s.roots| && s.roots[s.workers[w].child].place == Registering(ByWorker(w))
  {
    assert PlaceOk(s, w);
    forall i: nat
      ensures PlaceOk(s', i)
    {
      assert PlaceOk(s, i);
    }
  }

  lemma ScheduleChildInv(s: State, w: nat)
    requires Inv(s) && Enabled(s, ScheduleChild(w))
    ensures Inv(WorkerStep(s, w))
  {
    ScheduleChildPlaces(s, WorkerStep(s, w), w);
    RootMoves(s, WorkerStep(s, w), s.workers[w].child);
  }

  lemma ParkPlaces(s: State, s': State, step: Step)
    requires PlacesOk(s) && Enabled(s, step) && (step.ParkAtOneshot? || step.ParkAtBlocking?) && s' == Apply(s, step)
    ensures PlacesOk(s') && s.workers[step.w].r < |s.roots|
    ensures s.roots[s.workers[step.w].r].place == OnWorker(step.w)
  {
    assert PlaceOk(s, step.w);
    forall i: nat
      ensures PlaceOk(s', i)
    {
      assert PlaceOk(s, i);
    }
  }

  lemma ParkInv(s: State, step: Step)
    requires Inv(s) && Enabled(s, step) && (step.ParkAtOneshot? || step.ParkAtBlocking?)
    ensures Inv(Apply(s, step))
  {
    ParkPlaces(s, Apply(s, step), step);
    RootMoves(s, Apply(s, step), s.workers[step.w].r);
  }

  lemma SendInv(s: State, w: nat)
    requires Inv(s) && Enabled(s, SendOutcome(w))
    ensures Inv(Apply(s, SendOutcome(w)))
  {
    var s' := Apply(s, SendOutcome(w));
    assert PlaceOk(s, w);
    RootMoves(s, s', s.workers[w].r);
    forall i: nat
      ensures PlaceOk(s', i)
    {
      assert PlaceOk(s, i);
    }
  }

  lemma UnregisterPlaces(s: State, s': State, w: nat)
    requires PlacesOk(s) && Enabled(s, Unregister(w)) && s' == WorkerStep(s, w)
    ensures PlacesOk(s') && s.workers[w].r < |s.roots| && s.roots[s.workers[w].r].place == OnWorker(w)
  {
    assert PlaceOk(s, w);
    forall i: nat
      ensures PlaceOk(s', i)
    {
      assert PlaceOk(s, i);
    }
  }

  lemma UnregisterInv(s: State, w: nat)
    requires Inv(s) && Enabled(s, Unregister(w))
    ensures Inv(WorkerStep(s, w))
  {
    UnregisterPlaces(s, WorkerStep(s, w), w);
    TakeOut(s.listed, s.workers[w].r);
    RootMoves(s, WorkerStep(s, w), s.workers[w].r);
  }

  lemma DestroyPlaces(s: State, s': State, w: nat)
    requires PlacesOk(s) && Enabled(s, DestroyFrame(w)) && s' == WorkerStep(s, w)
    ensures PlacesOk(s') && s.workers[w].r < |s.roots| && s.roots[s.workers[w].r].place == Ending(w)
  {
    assert PlaceOk(s, w) && PlaceOk(s, s.workers[w].r);
    forall i: nat
      ensures PlaceOk(s', i)
    {
      assert PlaceOk(s, i);
    }
  }

  lemma DestroyInv(s: State, w: nat)
    requires Inv(s) && Enabled(s, DestroyFrame(w))
    ensures Inv(WorkerStep(s, w))
  {
    DestroyPlaces(s, WorkerStep(s, w), w);
    RootMoves(s, WorkerStep(s, w), s.workers[w].r);
  }

  lemma WakeInv(s: State, step: Step)
    requires Inv(s) && Enabled(s, step) && (step.WakeOneshot? || step.ScheduleCancelled?)
    ensures Inv(Apply(s, step))
  {
    var s' := Apply(s, step);
    RootMoves(s, s', step.r);
    forall i: nat
      ensures PlaceOk(s', i)
    {
      assert PlaceOk(s, i);
    }
  }

  lemma CancelInv(s: State, r: nat)
    requires Inv(s) && Enabled(s, CancelBlocking(r))
    ensures Inv(Apply(s, CancelBlocking(r)))
  {
    var s' := Apply(s, CancelBlocking(r));
    TakeOut(s.jobs, r);
    RootMoves(s, s', r);
    forall i: nat
      ensures PlaceOk(s', i)
    {
      assert PlaceOk(s, i);
    }
  }

  lemma PoolTakeInv(s: State, p: nat)
    requires Inv(s) && Enabled(s, PoolTake(p))
    ensures Inv(Apply(s, PoolTake(p)))
  {
    var s' := Apply(s, PoolTake(p));
    if s.jobs == [] {
      RootsStay(s, s');
    } else {
      TakeFront(s.jobs);
      RootMoves(s, s', s.jobs[0]);
    }
    forall i: nat
      ensures PlaceOk(s', i)
    {
      assert PlaceOk(s, i);
    }
  }

  lemma PoolDoneInv(s: State, p: nat)
    requires Inv(s) && Enabled(s, PoolDone(p))
    ensures Inv(Apply(s, PoolDone(p)))
  {
    var s' := Apply(s, PoolDone(p));
    assert PlaceOk(s, p);
    RootMoves(s, s', s.pool[p].r);
    forall i: nat
      ensures PlaceOk(s', i)
    {
      assert PlaceOk(s, i);
    }
  }

  lemma ShutdownInv(s: State, step: Step)
    requires Inv(s) && Enabled(s, step)
    requires step.BeginShutdown? || step.WalkDone? || step.RootsDrained? || step.PoolJoined? || step.SetStop?
        || step.WorkersJoined?
    ensures Inv(Apply(s, step))
  {
    var s' := Apply(s, step);
    RootsStay(s, s');
    forall i: nat
      ensures PlaceOk(s', i)
    {
      assert PlaceOk(s, i);
    }
  }

  lemma InvStep(s: State, step: Step)
    requires Inv(s) && Enabled(s, step)
    ensures Inv(Apply(s, step))
  {
    match step
    case OutsideSpawn => OutsideInv(s, step);
    case OutsideSchedule => OutsideInv(s, step);
    case WorkerLoad(w) => LoadInv(s, w);
    case WorkerFetch(w) => FetchInv(s, w);
    case SpawnChild(w) => SpawnChildInv(s, w);
    case ScheduleChild(w) => ScheduleChildInv(s, w);
    case ParkAtOneshot(w) => ParkInv(s, step);
    case ParkAtBlocking(w) => ParkInv(s, step);
    case SendOutcome(w) => SendInv(s, w);
    case Unregister(w) => UnregisterInv(s, w);
    case DestroyFrame(w) => DestroyInv(s, w);
    case WakeOneshot(r) => WakeInv(s, step);
    case CancelBlocking(r) => CancelInv(s, r);
    case ScheduleCancelled(r) => WakeInv(s, step);
    case PoolTake(p) => PoolTakeInv(s, p);
    case PoolDone(p) => PoolDoneInv(s, p);
    case _ => ShutdownInv(s, step);
  }

  lemma {:induction false} InvRun(s: State, steps: seq<Step>)
    requires Inv(s) && Legal(s, steps)
    ensures Inv(Exec(s, steps))
    decreases |steps|
  {
    if steps == [] {
    } else {
      InvStep(s, steps[0]);
      InvRun(Apply(s, steps[0]), steps[1..]);
    }
  }

  // ----- main results -----

  lemma Reached(s: State, steps: seq<Step>)
    requires Init(s) && Legal(s, steps)
    ensures Inv(Exec(s, steps))
  {
    InvRun(s, steps);
  }

  /** The root a worker has in hand before it unregisters it. */
  function InHand(pc: WorkerPc): Option<nat> {
    match pc
    case Running(r) => Some(r)
    case Spawning(r, _) => Some(r)
    case Sent(r) => Some(r)
    case _ => None
  }

  /** A root is in exactly one place, and the place is what the structures say: the run
      queue once, the worker that has it in hand, the blocking queue once, the pool thread
      that executes it, the spawner that has yet to schedule it, or the worker that is about
      to destroy it; else it waits at a oneshot, was cancelled and is about to be scheduled,
      or is gone. It is in the root list exactly while it is live. */
  lemma OnePlace(s: State, steps: seq<Step>, r: nat)
    requires Init(s) && Legal(s, steps) && r < |Exec(s, steps).roots|
    ensures var e := Exec(s, steps); var p := e.roots[r].place;
      && Distinct(e.queue) && Distinct(e.jobs) && Distinct(e.listed)
      && (r in e.listed <==> Live(p))
      && (r in e.queue <==> p == Queued)
      && (r in e.jobs <==> p == ParkedBlocking)
      && (e.outside == Some(r) <==> p == Registering(Outside))
      && (forall w: nat :: w < |e.workers| ==> (InHand(e.workers[w]) == Some(r) <==> p == OnWorker(w)))
      && (forall w: nat :: w < |e.workers| ==> (e.workers[w] == Destroying(r) <==> p == Ending(w)))
      && (forall w: nat :: w < |e.workers| ==>
            (e.workers[w].Spawning? && e.workers[w].child == r <==> p == Registering(ByWorker(w))))
      && (forall q: nat :: q < |e.pool| ==> (e.pool[q] == Executing(r) <==> p == InPool(q)))
      && (p.OnWorker? || p.Ending? ==> p.w < |e.workers|) && (p.InPool? ==> p.p < |e.pool|)
  {
    Reached(s, steps);
    var e := Exec(s, steps);
    assert PlaceOk(e, r);
    forall w: nat | w < |e.workers|
      ensures InHand(e.workers[w]) == Some(r) <==> e.roots[r].place == OnWorker(w)
      ensures e.workers[w] == Destroying(r) <==> e.roots[r].place == Ending(w)
      ensures e.workers[w].Spawning? && e.workers[w].child == r <==> e.roots[r].place == Registering(ByWorker(w))
    {
      assert PlaceOk(e, w);
    }
    forall q: nat | q < |e.pool|
      ensures e.pool[q] == Executing(r) <==> e.roots[r].place == InPool(q)
    {
      assert PlaceOk(e, q);
    }
  }

  // ----- the order of the run queue -----

  /** The handle a step gives to schedule, if any. */
  function Scheduled(s: State, step: Step): seq<nat>
    requires Enabled(s, step)
  {
    match step
    case OutsideSchedule => [s.outside.value]
    case ScheduleChild(w) => [s.workers[w].child]
    case WakeOneshot(r) => [r]
    case ScheduleCancelled(r) => [r]
    case PoolDone(p) => [s.pool[p].r]
    case _ => []
  }

  /** How many handles a step takes out of the run queue. */
  function Served(s: State, step: Step): nat {
    if step.WorkerFetch? && s.queue != [] then 1 else 0
  }

  ghost function ScheduledIn(s: State, steps: seq<Step>): seq<nat>
    requires Legal(s, steps)
    decreases |steps|
  {
    if steps == [] then [] else Scheduled(s, steps[0]) + ScheduledIn(Apply(s, steps[0]), steps[1..])
  }

  ghost function ServedIn(s: State, steps: seq<Step>): nat
    requires Legal(s, steps)
    decreases |steps|
  {
    if steps == [] then 0 else Served(s, steps[0]) + ServedIn(Apply(s, steps[0]), steps[1..])
  }

  lemma QueueStep(s: State, step: Step)
    requires Enabled(s, step)
    ensures Served(s, step) <= |s.queue|
    ensures Apply(s, step).queue == s.queue[Served(s, step)..] + Scheduled(s, step)
  {
  }

  lemma Shift(q: seq<nat>, i: nat, a: seq<nat>, b: seq<nat>, j: nat)
    requires i <= |q| && j <= |q[i..] + a + b|
    ensures i + j <= |q + (a + b)| && (q[i..] + a + b)[j..] == (q + (a + b))[i + j..]
  {
    assert q[i..] + a + b == (q + (a + b))[i..];
  }

  lemma {:induction false} QueueIsFifo(s: State, steps: seq<Step>)
    requires Legal(s, steps)
    ensures ServedIn(s, steps) <= |s.queue + ScheduledIn(s, steps)|
    ensures Exec(s, steps).queue == (s.queue + ScheduledIn(s, steps))[ServedIn(s, steps)..]
    decreases |steps|
  {
    if steps == [] {
      assert s.queue + [] == s.queue;
    } else {
      var s', rest := Apply(s, steps[0]), steps[1..];
      QueueStep(s, steps[0]);
      QueueIsFifo(s', rest);
      Shift(s.queue, Served(s, steps[0]), Scheduled(s, steps[0]), ScheduledIn(s', rest), ServedIn(s', rest));
    }
  }

  /** The run queue loses nothing and lets nobody overtake: the n-th handle that the workers
      fetch is the n-th that was scheduled, and what was not fetched yet is in the queue. */
  lemma ServedInOrder(s: State, steps: seq<Step>, w: nat)
    requires Init(s) && Legal(s, steps)
    ensures ServedIn(s, steps) <= |ScheduledIn(s, steps)|
    ensures Exec(s, steps).queue == ScheduledIn(s, steps)[ServedIn(s, steps)..]
    ensures var e := Exec(s, steps);
      Enabled(e, WorkerFetch(w)) && e.queue != [] ==>
        ServedIn(s, steps) < |ScheduledIn(s, steps)| &&
        Apply(e, WorkerFetch(w)).workers[w] == Running(ScheduledIn(s, steps)[ServedIn(s, steps)])
  {
    QueueIsFifo(s, steps);
    assert s.queue + ScheduledIn(s, steps) == ScheduledIn(s, steps);
  }

  lemma SomeMember(q: seq<nat>)
    ensures q == [] || exists r: nat :: r in q
  {
    if q != [] {
      assert q[0] in q;
    }
  }

  /** Nothing is listed, queued or in anybody's hands. */
  ghost predicate Empty(e: State) {
    && e.listed == [] && e.queue == [] && e.jobs == [] && e.outside == None
    && (forall w :: 0 <= w < |e.workers| ==> InHand(e.workers[w]) == None)
    && (forall p :: 0 <= p < |e.pool| ==> !e.pool[p].Executing?)
  }

  lemma EmptyPastWait(e: State)
    requires Inv(e) && PastWait(e)
    ensures Empty(e)
  {
    forall r: nat
      ensures r !in e.queue && r !in e.jobs
    {
      if r < |e.roots| {
        assert PlaceOk(e, r);
      }
    }
    SomeMember(e.queue);
    SomeMember(e.jobs);
    forall w | 0 <= w < |e.workers|
      ensures InHand(e.workers[w]) == None
    {
      assert PlaceOk(e, w);
    }
    forall p | 0 <= p < |e.pool|
      ensures !e.pool[p].Executing?
    {
      assert PlaceOk(e, p);
    }
  }

  /** Once the destructor is past its wait, the root list, the run queue and the blocking
      queue are empty in every later state, nobody runs a root, and no pool thread has a
      job. */
  lemma CleanShutdown(s: State, steps: seq<Step>)
    requires Init(s) && Legal(s, steps) && PastWait(Exec(s, steps))
    ensures Empty(Exec(s, steps))
  {
    Reached(s, steps);
    EmptyPastWait(Exec(s, steps));
  }

  /** A worker that leaves its loop on the stop flag, without looking at the queue again,
      drops no task; and when the destructor ends, every root has sent its outcome and
      its frame is destroyed. */
  lemma NoTaskDropped(s: State, steps: seq<Step>)
    requires Init(s) && Legal(s, steps)
    ensures var e := Exec(s, steps);
      && (forall w :: 0 <= w < |e.workers| && e.workers[w].Exited? ==> e.queue == [])
      && (e.shutdown.Finished? ==> forall r :: 0 <= r < |e.roots| ==> e.roots[r] == Root(Destroyed, true))
  {
    Reached(s, steps);
    var e := Exec(s, steps);
    if w :| 0 <= w < |e.workers| && e.workers[w].Exited? {
      assert PlaceOk(e, w);
      CleanShutdown(s, steps);
    }
    if e.shutdown.Finished? {
      AllDestroyed(e);
    }
  }

  lemma AllDestroyed(e: State)
    requires Inv(e) && e.shutdown.Finished?
    ensures forall r :: 0 <= r < |e.roots| ==> e.roots[r] == Root(Destroyed, true)
  {
    forall r | 0 <= r < |e.roots|
      ensures e.roots[r] == Root(Destroyed, true)
    {
      assert PlaceOk(e, r);
      assert r !in e.listed;
    }
  }

  /** A root's frame, and the sender in it, is destroyed only after its outcome was sent
      and after it left the root list, as RootSends of OneshotProtocol asks of a root; and
      no root sends twice. */
  lemma OutcomeBeforeFrame(s: State, steps: seq<Step>, r: nat)
    requires Init(s) && Legal(s, steps) && r < |Exec(s, steps).roots|
    ensures var e := Exec(s, steps);
      && (e.roots[r].place.Destroyed? || e.roots[r].place.Ending? ==> e.roots[r].sent && r !in e.listed)
      && (forall w :: 0 <= w < |e.workers| && e.workers[w] == Running(r) ==> !e.roots[r].sent)
      && (e.roots[r].sent && r in e.listed ==> exists w :: 0 <= w < |e.workers| && e.workers[w] == Sent(r))
  {
    Reached(s, steps);
    var e := Exec(s, steps);
    assert PlaceOk(e, r);
    forall w | 0 <= w < |e.workers| && e.workers[w] == Running(r)
      ensures !e.roots[r].sent
    {
      assert PlaceOk(e, w);
    }
  }
}
