/** Coroutine frames of tasks and the objects that hold their handles, as a transition
    system: any number of frames, task objects and awaiters, wherever they live. A step is
    one operation of task.hpp. Destroying a frame is not atomic: the frame is Dying until
    every object in it is gone, each of which may begin the destruction of another frame;
    the steps of that may interleave with everything else, which allows more runs than the
    nested calls of the source. Raw handles from handle() and release() are not used to
    resume or destroy a frame. */
module TaskProtocol {
  import opened Options

  /** What a coroutine body leaves in its promise: return_value and unhandled_exception may
      both have been called. */
  datatype Result = Result(value: Option<nat>, exception: Option<nat>)

  datatype Delivered = Value(v: Option<nat>) | Throw(e: nat)

  /** root_outcome: what goes to the sender of a root. */
  datatype Outcome = Outcome(value: Option<nat>, exception: Option<nat>)

  datatype Home = Outside | InFrame(f: nat)

  datatype Kind = TaskObject | Awaiter

  datatype Holder = Holder(kind: Kind, home: Home, handle: Option<nat>, live: bool)

  /** Auxiliary, no step reads it: who is to destroy the frame. */
  datatype Owner = Held(h: nat) | Itself | Teardown

  datatype Status =
    | Initial
    | Queued
    | Running
    | Awaiting(a: nat)
    | AtLeaf(given: Option<nat>)
    | Resumed(a: nat)
    | Final
    | Dying
    | Destroyed

  /** A scope is named by the root it was made for. destroyed counts frame destructions;
      started is the moment of the first resumption. */
  datatype Frame = Frame(
    status: Status,
    detached: bool,
    scope: Option<nat>,
    continuation: Option<nat>,
    outcome: Option<Result>,
    sent: Option<Outcome>,
    destroyed: nat,
    started: Option<nat>,
    owner: Owner)

  datatype Delivery = Delivery(parent: nat, child: nat, what: Delivered)

  datatype State = State(frames: seq<Frame>, holders: seq<Holder>, log: seq<Delivery>, clock: nat)

  datatype Step =
    | Call(home: Home)
    | MoveConstruct(h: nat, home: Home)
    | MoveAssign(dst: nat, src: nat)
    | Drop(h: nat)
    | Spawn(h: nat)
    | Resume(f: nat)
    | AwaitTask(f: nat, h: nat)
    | AwaitLeaf(f: nat)
    | LeafDone(f: nat)
    | Finish(f: nat, result: Result)
    | AwaitResume(f: nat)
    | FrameGone(f: nat)

  /** await_resume of the awaiter: an exception wins over a value. */
  function Deliver(r: Result): Delivered {
    if r.exception.Some? then Throw(r.exception.value) else Value(r.value)
  }

  /** What final_suspend sends for a root. */
  function RootOutcome(r: Result): Outcome {
    if r.exception.Some? then Outcome(None, r.exception) else Outcome(r.value, None)
  }

  /** What join makes of it. */
  function Joined(o: Outcome): Delivered {
    if o.exception.Some? then Throw(o.exception.value) else Value(o.value)
  }

  predicate Is(s: State, f: nat, status: Status) {
    f < |s.frames| && s.frames[f].status == status
  }

  predicate Usable(s: State, home: Home) {
    home.InFrame? ==> home.f < |s.frames| && !s.frames[home.f].status.Dying? && !s.frames[home.f].status.Destroyed?
  }

  predicate TaskAt(s: State, h: nat) {
    h < |s.holders| && s.holders[h].live && s.holders[h].kind.TaskObject? && Usable(s, s.holders[h].home)
  }

  /** The scope of an object ends: a local or a temporary of a running frame, an object
      outside any frame, or whatever is left in a frame that is being destroyed. */
  predicate MayDrop(s: State, h: nat) {
    && h < |s.holders| && s.holders[h].live
    && match s.holders[h].home
       case Outside => s.holders[h].kind.TaskObject?
       case InFrame(f) => Is(s, f, Dying) || (Is(s, f, Running) && s.holders[h].kind.TaskObject?)
  }

  predicate Enabled(s: State, step: Step) {
    match step
    case Call(home) => home.InFrame? ==> Is(s, home.f, Running)
    case MoveConstruct(h, home) => TaskAt(s, h) && Usable(s, home)
    case MoveAssign(dst, src) => TaskAt(s, dst) && TaskAt(s, src)
    case Drop(h) => MayDrop(s, h)
    case Spawn(h) => TaskAt(s, h)
    case Resume(f) => Is(s, f, Queued)
    case AwaitTask(f, h) => Is(s, f, Running) && TaskAt(s, h) && s.holders[h].handle.Some?
    case AwaitLeaf(f) => Is(s, f, Running)
    case LeafDone(f) => f < |s.frames| && s.frames[f].status.AtLeaf?
    case Finish(f, result) => Is(s, f, Running) && (result.value.Some? || result.exception.Some?)
    case AwaitResume(f) => f < |s.frames| && s.frames[f].status.Resumed?
    case FrameGone(f) => Is(s, f, Dying) && forall h :: 0 <= h < |s.holders| && s.holders[h].live ==> s.holders[h].home != InFrame(f)
  }

  function SetFrame(s: State, f: nat, fr: Frame): State {
    if f < |s.frames| then s.(frames := s.frames[f := fr]) else s
  }

  function SetStatus(s: State, f: nat, status: Status): State {
    if f < |s.frames| then SetFrame(s, f, s.frames[f].(status := status)) else s
  }

  function SetHandle(s: State, h: nat, handle: Option<nat>): State {
    if h < |s.holders| then s.(holders := s.holders[h := s.holders[h].(handle := handle)]) else s
  }

  /** h now holds the frame, if there is one. */
  function Owned(s: State, handle: Option<nat>, h: nat): State {
    if handle.Some? && handle.value < |s.frames|
    then SetFrame(s, handle.value, s.frames[handle.value].(owner := Held(h)))
    else s
  }

  /** handle_.destroy(), if there is a handle. */
  function Destroy(s: State, handle: Option<nat>): State {
    if handle.Some? && handle.value < |s.frames|
    then SetFrame(s, handle.value, s.frames[handle.value].(status := Dying, owner := Teardown))
    else s
  }

  /** The object destroys what it holds and is empty. */
  function Reset(s: State, h: nat): State
    requires h < |s.holders|
  {
    Destroy(SetHandle(s, h, None), s.holders[h].handle)
  }

  /** std::exchange: the empty object dst takes what src holds. */
  function Transfer(s: State, src: nat, dst: nat): State
    requires src < |s.holders|
  {
    Owned(SetHandle(SetHandle(s, src, None), dst, s.holders[src].handle), s.holders[src].handle, dst)
  }

  function End(s: State, h: nat): State
    requires h < |s.holders|
  {
    s.(holders := s.holders[h := s.holders[h].(live := false, handle := None)])
  }

  function DropHolder(s: State, h: nat): State
    requires h < |s.holders|
  {
    End(Reset(s, h), h)
  }

  /** A new empty task object. */
  function Empty(s: State, home: Home): State {
    s.(holders := s.holders + [Holder(TaskObject, home, None, true)])
  }

  function MoveInto(s: State, h: nat, home: Home): State
    requires h < |s.holders|
  {
    Transfer(Empty(s, home), h, |s.holders|)
  }

  /** _spawn: nothing for an empty or finished task, else a root with a scope of its own. */
  function SpawnIt(s: State, h: nat): State
    requires h < |s.holders|
  {
    match s.holders[h].handle
    case None => s
    case Some(f) =>
      if f < |s.frames| && !s.frames[f].status.Final? then
        SetFrame(SetHandle(s, h, None), f,
                 s.frames[f].(status := Queued, detached := true, scope := Some(f), started := Some(s.clock),
                     owner := Itself))
          .(clock := s.clock + 1)
      else s
  }

  /** co_await of the temporary task a in frame f, which becomes the awaiter. */
  function StartChild(s: State, f: nat, a: nat): State
    requires f < |s.frames| && a < |s.holders|
  {
    match s.holders[a].handle
    case None => s
    case Some(g) =>
      var s1 := s.(holders := s.holders[a := s.holders[a].(kind := Awaiter)]);
      if g >= |s.frames| then s
      else if s.frames[g].status.Final? then
        SetStatus(SetFrame(s1, g, s.frames[g].(scope := s.frames[f].scope)), f, Resumed(a))
      else
        SetStatus(SetFrame(s1, g, s.frames[g].(scope := s.frames[f].scope, continuation := Some(f),
                                               status := Running, started := Some(s.clock))), f, Awaiting(a))
          .(clock := s.clock + 1)
  }

  /** The end of a coroutine body, and final_suspend. */
  function FinishIt(s: State, f: nat, r: Result): State
    requires f < |s.frames|
  {
    var fr := s.frames[f].(outcome := Some(r));
    if fr.detached then SetFrame(s, f, fr.(sent := Some(RootOutcome(r)), status := Dying, owner := Teardown))
    else
      var s1 := SetFrame(s, f, fr.(status := Final));
      if fr.continuation.Some? && fr.continuation.value < |s.frames|
          && s1.frames[fr.continuation.value].status.Awaiting?
      then SetStatus(s1, fr.continuation.value, Resumed(s.frames[fr.continuation.value].status.a))
      else s1
  }

  /** await_resume in the parent, and the end of the awaiter. */
  function Deliveries(s: State, f: nat): State
    requires f < |s.frames| && s.frames[f].status.Resumed?
  {
    var a := s.frames[f].status.a;
    if a < |s.holders| && s.holders[a].handle.Some? && s.holders[a].handle.value < |s.frames|
       && s.frames[s.holders[a].handle.value].outcome.Some? then
      var g := s.holders[a].handle.value;
      DropHolder(SetStatus(s.(log := s.log + [Delivery(f, g, Deliver(s.frames[g].outcome.value))]), f, Running), a)
    else s
  }

  /** An assignment from an object that lies inside the frame it destroys, undefined in the
      source, has an outcome here too. */
  function Apply(s: State, step: Step): State
    requires Enabled(s, step)
  {
    match step
    case Call(home) =>
      s.(frames := s.frames + [Frame(Initial, false, None, None, None, None, 0, None, Held(|s.holders|))],
         holders := s.holders + [Holder(TaskObject, home, Some(|s.frames|), true)])
    case MoveConstruct(h, home) => MoveInto(s, h, home)
    case MoveAssign(dst, src) => if dst == src then s else Transfer(Reset(s, dst), src, dst)
    case Drop(h) => DropHolder(s, h)
    case Spawn(h) => SpawnIt(s, h)
    case Resume(f) => SetStatus(s, f, Running)
    case AwaitTask(f, h) => StartChild(MoveInto(s, h, InFrame(f)), f, |s.holders|)
    case AwaitLeaf(f) => SetStatus(s, f, AtLeaf(s.frames[f].scope))
    case LeafDone(f) => SetStatus(s, f, Queued)
    case Finish(f, result) => FinishIt(s, f, result)
    case AwaitResume(f) => Deliveries(s, f)
    case FrameGone(f) => SetFrame(s, f, s.frames[f].(status := Destroyed, destroyed := s.frames[f].destroyed + 1))
  }

  ghost predicate Legal(s: State, steps: seq<Step>)
    decreases |steps|
  {
    steps == [] || (Enabled(s, steps[0]) && Legal(Apply(s, steps[0]), steps[1..]))
  }

  ghost function Exec(s: State, steps: seq<Step>): State
    requires Legal(s, steps)
    decreases |steps|
  {
    if steps == [] then s else Exec(Apply(s, steps[0]), steps[1..])
  }

  const START := State([], [], [], 0)

  // ----- the invariant -----

  predicate Active(status: Status) {
    status.Queued? || status.Running? || status.Awaiting? || status.AtLeaf? || status.Resumed?
  }

  predicate Gone(status: Status) {
    status.Dying? || status.Destroyed?
  }

  predicate Holds(s: State, h: nat, f: nat) {
    h < |s.holders| && s.holders[h].live && s.holders[h].handle == Some(f)
  }

  /** A task object holds only a frame that was never started; an awaiter holds the child
      its frame waits for. */
  ghost predicate HolderOk(s: State, h: nat)
    requires h < |s.holders|
  {
    var o := s.holders[h];
    if !o.live then o.handle == None
    else
      && (o.home.InFrame? ==> o.home.f < |s.frames| && !s.frames[o.home.f].status.Destroyed?)
      && (o.handle.Some? ==> o.handle.value < |s.frames| && s.frames[o.handle.value].owner == Held(h))
      && (o.kind.TaskObject? && o.handle.Some? ==> s.frames[o.handle.value].status.Initial?)
      && (o.kind.Awaiter? ==>
            && o.handle.Some? && o.home.InFrame?
            && var p := o.home.f; var g := o.handle.value;
            && s.frames[g].continuation == Some(p)
            && ((s.frames[p].status == Awaiting(h) && Active(s.frames[g].status))
                || (s.frames[p].status == Resumed(h) && s.frames[g].status.Final?)))
  }

  /** Who owns the frame, by its status. */
  ghost predicate OwnerOk(s: State, f: nat)
    requires f < |s.frames|
  {
    var fr := s.frames[f];
    match fr.owner
    case Held(h) =>
      && Holds(s, h, f) && !fr.detached && !Gone(fr.status)
      && (fr.status.Initial? <==> s.holders[h].kind.TaskObject?)
    case Itself => fr.detached && Active(fr.status)
    case Teardown => Gone(fr.status)
  }

  ghost predicate FrameOk(s: State, f: nat)
    requires f < |s.frames|
  {
    var fr := s.frames[f];
    && (Active(fr.status) || fr.status.Final? ==> fr.started.Some?)
    && (fr.status.Initial? ==> fr.started.None?)
    && (fr.outcome.Some? <==> fr.started.Some? && !Active(fr.status))
    && fr.sent == (if fr.detached && fr.outcome.Some? then Some(RootOutcome(fr.outcome.value)) else None)
    && fr.destroyed == (if fr.status.Destroyed? then 1 else 0)
    && (fr.started.Some? ==> fr.started.value < s.clock && (fr.detached || fr.continuation.Some?))
    && (fr.started.None? ==> !fr.detached && fr.continuation.None?)
    && (fr.detached ==> fr.scope == Some(f) && fr.continuation.None?)
    && (fr.status.AtLeaf? ==> fr.status.given == fr.scope)
    && (fr.status.Awaiting? || fr.status.Resumed? ==>
          fr.status.a < |s.holders| && s.holders[fr.status.a].live
          && s.holders[fr.status.a].kind.Awaiter? && s.holders[fr.status.a].home == InFrame(f))
  }

  /** A child started after its parent, with the scope of its parent. */
  ghost predicate ParentOk(s: State, f: nat)
    requires f < |s.frames|
  {
    var fr := s.frames[f];
    fr.continuation.Some? ==>
      && fr.continuation.value < |s.frames| && fr.started.Some?
      && s.frames[fr.continuation.value].started.Some?
      && s.frames[fr.continuation.value].started.value < fr.started.value
      && s.frames[fr.continuation.value].scope == fr.scope
  }

  ghost predicate DeliveryOk(s: State, d: Delivery) {
    && d.child < |s.frames| && Gone(s.frames[d.child].status)
    && s.frames[d.child].continuation == Some(d.parent)
    && s.frames[d.child].outcome.Some? && d.what == Deliver(s.frames[d.child].outcome.value)
  }

  ghost predicate LogOk(s: State) {
    && (forall i :: 0 <= i < |s.log| ==> DeliveryOk(s, s.log[i]))
    && (forall i, j :: 0 <= i < j < |s.log| ==> s.log[i].child != s.log[j].child)
  }

  ghost predicate HoldersOk(s: State) {
    forall h {:trigger HolderOk(s, h)} :: 0 <= h < |s.holders| ==> HolderOk(s, h)
  }

  ghost predicate OwnersOk(s: State) {
    forall f {:trigger OwnerOk(s, f)} :: 0 <= f < |s.frames| ==> OwnerOk(s, f)
  }

  ghost predicate FramesOk(s: State) {
    forall f {:trigger FrameOk(s, f)} :: 0 <= f < |s.frames| ==> FrameOk(s, f)
  }

  ghost predicate ParentsOk(s: State) {
    forall f {:trigger ParentOk(s, f)} :: 0 <= f < |s.frames| ==> ParentOk(s, f)
  }

  ghost predicate Inv(s: State) {
    HoldersOk(s) && OwnersOk(s) && FramesOk(s) && ParentsOk(s) && LogOk(s)
  }

  // ----- every step keeps the invariant -----

  /** Where both states have the frame, what parents and children agree on has not changed;
      and what is destroyed stays as it is. */
  ghost predicate Lasting(s: State, s': State) {
    && |s.frames| <= |s'.frames| && s.clock <= s'.clock
    && (forall f :: 0 <= f < |s.frames| ==>
          && s'.frames[f].continuation == s.frames[f].continuation
          && s'.frames[f].started == s.frames[f].started && s'.frames[f].scope == s.frames[f].scope
          && (Gone(s.frames[f].status) ==> Gone(s'.frames[f].status) && s'.frames[f].outcome == s.frames[f].outcome))
    && (forall f :: |s.frames| <= f < |s'.frames| ==> s'.frames[f].continuation == None)
  }

  lemma ParentsStay(s: State, s': State)
    requires ParentsOk(s) && Lasting(s, s')
    ensures ParentsOk(s')
  {
    forall f | 0 <= f < |s'.frames|
      ensures ParentOk(s', f)
    {
      if f < |s.frames| {
        assert ParentOk(s, f);
      }
    }
  }

  lemma LogStays(s: State, s': State)
    requires LogOk(s) && Lasting(s, s') && s'.log == s.log
    ensures LogOk(s')
  {
    forall i | 0 <= i < |s'.log|
      ensures DeliveryOk(s', s'.log[i])
    {
      assert DeliveryOk(s, s.log[i]);
    }
  }

  lemma CallInv(s: State, s': State, home: Home)
    requires Inv(s) && Enabled(s, Call(home)) && s' == Apply(s, Call(home))
    ensures Inv(s')
  {
    ParentsStay(s, s');
    LogStays(s, s');
    forall h | 0 <= h < |s'.holders|
      ensures HolderOk(s', h)
    {
      if h < |s.holders| {
        assert HolderOk(s, h);
      }
    }
    forall f | 0 <= f < |s'.frames|
      ensures OwnerOk(s', f) && FrameOk(s', f)
    {
      if f < |s.frames| {
        assert OwnerOk(s, f) && FrameOk(s, f);
      }
    }
  }

  lemma ResetInv(s: State, s': State, h: nat)
    requires Inv(s) && h < |s.holders| && s.holders[h].kind.TaskObject? && s' == Reset(s, h)
    ensures Inv(s')
  {
    assert HolderOk(s, h);
    ParentsStay(s, s');
    LogStays(s, s');
    forall i | 0 <= i < |s'.holders|
      ensures HolderOk(s', i)
    {
      assert HolderOk(s, i);
    }
    forall f | 0 <= f < |s'.frames|
      ensures OwnerOk(s', f) && FrameOk(s', f)
    {
      assert OwnerOk(s, f) && FrameOk(s, f);
    }
  }

  lemma TransferHolders(s: State, s': State, src: nat, dst: nat)
    requires Inv(s) && src < |s.holders| && dst < |s.holders| && src != dst && s.holders[dst].handle.None?
    requires s.holders[src].kind.TaskObject? && s.holders[dst].kind.TaskObject? && s.holders[dst].live
    requires s' == Transfer(s, src, dst)
    ensures HoldersOk(s')
  {
    assert HolderOk(s, src);
    forall i | 0 <= i < |s'.holders|
      ensures HolderOk(s', i)
    {
      assert HolderOk(s, i);
    }
  }

  lemma TransferInv(s: State, s': State, src: nat, dst: nat)
    requires Inv(s) && src < |s.holders| && dst < |s.holders| && src != dst && s.holders[dst].handle.None?
    requires s.holders[src].kind.TaskObject? && s.holders[dst].kind.TaskObject? && s.holders[dst].live
    requires s' == Transfer(s, src, dst)
    ensures Inv(s')
  {
    assert HolderOk(s, src);
    TransferHolders(s, s', src, dst);
    ParentsStay(s, s');
    LogStays(s, s');
    forall i | 0 <= i < |s'.frames|
      ensures OwnerOk(s', i)
    {
      assert OwnerOk(s, i);
    }
    forall i | 0 <= i < |s'.frames|
      ensures FrameOk(s', i)
    {
      assert FrameOk(s, i);
    }
  }

  lemma EmptyInv(s: State, s': State, home: Home)
    requires Inv(s) && Usable(s, home) && s' == Empty(s, home)
    ensures Inv(s')
  {
    ParentsStay(s, s');
    LogStays(s, s');
    forall i | 0 <= i < |s'.holders|
      ensures HolderOk(s', i)
    {
      if i < |s.holders| {
        assert HolderOk(s, i);
      }
    }
    forall i | 0 <= i < |s'.frames|
      ensures OwnerOk(s', i)
    {
      assert OwnerOk(s, i);
    }
    forall i | 0 <= i < |s'.frames|
      ensures FrameOk(s', i)
    {
      assert FrameOk(s, i);
    }
  }

  lemma EndInv(s: State, s': State, h: nat)
    requires Inv(s) && h < |s.holders| && s.holders[h].kind.TaskObject? && s.holders[h].handle.None?
    requires s' == End(s, h)
    ensures Inv(s')
  {
    ParentsStay(s, s');
    LogStays(s, s');
    forall i | 0 <= i < |s'.holders|
      ensures HolderOk(s', i)
    {
      assert HolderOk(s, i);
    }
    forall i | 0 <= i < |s'.frames|
      ensures OwnerOk(s', i)
    {
      assert OwnerOk(s, i);
    }
    forall i | 0 <= i < |s'.frames|
      ensures FrameOk(s', i)
    {
      assert FrameOk(s, i);
    }
  }

  lemma MoveConstructInv(s: State, s': State, h: nat, home: Home)
    requires Inv(s) && Enabled(s, MoveConstruct(h, home)) && s' == MoveInto(s, h, home)
    ensures Inv(s')
  {
    EmptyInv(s, Empty(s, home), home);
    TransferInv(Empty(s, home), s', h, |s.holders|);
  }

  lemma MoveAssignInv(s: State, s': State, dst: nat, src: nat)
    requires Inv(s) && Enabled(s, MoveAssign(dst, src)) && s' == Apply(s, MoveAssign(dst, src))
    ensures Inv(s')
  {
    if dst != src {
      ResetInv(s, Reset(s, dst), dst);
      TransferInv(Reset(s, dst), s', src, dst);
    }
  }

  lemma DropInv(s: State, s': State, h: nat)
    requires Inv(s) && Enabled(s, Drop(h)) && s' == DropHolder(s, h)
    ensures Inv(s')
  {
    assert HolderOk(s, h);
    ResetInv(s, Reset(s, h), h);
    EndInv(Reset(s, h), s', h);
  }

  lemma SpawnInv(s: State, s': State, h: nat)
    requires Inv(s) && Enabled(s, Spawn(h)) && s' == SpawnIt(s, h)
    ensures Inv(s')
  {
    assert HolderOk(s, h);
    if s.holders[h].handle.Some? {
      var f := s.holders[h].handle.value;
      assert OwnerOk(s, f) && FrameOk(s, f);
      forall g | 0 <= g < |s'.frames|
        ensures ParentOk(s', g)
      {
        assert ParentOk(s, g) && FrameOk(s, g);
      }
      forall i | 0 <= i < |s'.log|
        ensures DeliveryOk(s', s'.log[i])
      {
        assert DeliveryOk(s, s.log[i]);
      }
      forall i | 0 <= i < |s'.holders|
        ensures HolderOk(s', i)
      {
        assert HolderOk(s, i);
      }
      forall i | 0 <= i < |s'.frames|
        ensures OwnerOk(s', i)
      {
        assert OwnerOk(s, i);
      }
      forall i | 0 <= i < |s'.frames|
        ensures FrameOk(s', i)
      {
        assert FrameOk(s, i);
      }
    }
  }

  lemma StartChildHolders(s: State, s': State, f: nat, a: nat)
    requires Inv(s) && Is(s, f, Running) && a < |s.holders| && s.holders[a].live && s.holders[a].kind.TaskObject?
    requires s.holders[a].home == InFrame(f) && s.holders[a].handle.Some? && s' == StartChild(s, f, a)
    ensures HoldersOk(s')
  {
    assert HolderOk(s, a) && OwnerOk(s, s.holders[a].handle.value) && FrameOk(s, f);
    forall i | 0 <= i < |s'.holders|
      ensures HolderOk(s', i)
    {
      assert HolderOk(s, i);
    }
  }

  lemma StartChildParents(s: State, s': State, f: nat, a: nat)
    requires Inv(s) && Is(s, f, Running) && a < |s.holders| && s.holders[a].live && s.holders[a].kind.TaskObject?
    requires s.holders[a].home == InFrame(f) && s.holders[a].handle.Some? && s' == StartChild(s, f, a)
    ensures ParentsOk(s') && LogOk(s')
  {
    assert HolderOk(s, a);
    var g := s.holders[a].handle.value;
    assert OwnerOk(s, g) && FrameOk(s, g) && FrameOk(s, f);
    forall i | 0 <= i < |s'.frames|
      ensures ParentOk(s', i)
    {
      assert ParentOk(s, i);
    }
    forall i | 0 <= i < |s'.log|
      ensures DeliveryOk(s', s'.log[i])
    {
      assert DeliveryOk(s, s.log[i]);
    }
  }

  /** The task object a in running frame f becomes an awaiter. */
  lemma StartChildInv(s: State, s': State, f: nat, a: nat)
    requires Inv(s) && Is(s, f, Running) && a < |s.holders| && s.holders[a].live && s.holders[a].kind.TaskObject?
    requires s.holders[a].home == InFrame(f) && s.holders[a].handle.Some? && s' == StartChild(s, f, a)
    ensures Inv(s')
  {
    StartChildHolders(s, s', f, a);
    StartChildParents(s, s', f, a);
    assert HolderOk(s, a);
    var g := s.holders[a].handle.value;
    assert OwnerOk(s, g) && FrameOk(s, g) && FrameOk(s, f);
    forall i | 0 <= i < |s'.frames|
      ensures OwnerOk(s', i)
    {
      assert OwnerOk(s, i);
    }
    forall i | 0 <= i < |s'.frames|
      ensures FrameOk(s', i)
    {
      assert FrameOk(s, i);
    }
  }

  lemma AwaitTaskInv(s: State, s': State, f: nat, h: nat)
    requires Inv(s) && Enabled(s, AwaitTask(f, h)) && s' == Apply(s, AwaitTask(f, h))
    ensures Inv(s')
  {
    var s1 := MoveInto(s, h, InFrame(f));
    assert HolderOk(s, h);
    assert OwnerOk(s, s.holders[h].handle.value);
    MoveConstructInv(s, s1, h, InFrame(f));
    StartChildInv(s1, s', f, |s.holders|);
  }

  /** A started frame that waits for no child changes to another such status. */
  lemma StatusInv(s: State, s': State, f: nat, status: Status)
    requires Inv(s) && f < |s.frames| && s' == SetStatus(s, f, status)
    requires Active(s.frames[f].status) && !s.frames[f].status.Awaiting? && !s.frames[f].status.Resumed?
    requires Active(status) && !status.Awaiting? && !status.Resumed?
    requires status.AtLeaf? ==> status.given == s.frames[f].scope
    ensures Inv(s')
  {
    ParentsStay(s, s');
    LogStays(s, s');
    forall i | 0 <= i < |s'.holders|
      ensures HolderOk(s', i)
    {
      assert HolderOk(s, i);
    }
    forall i | 0 <= i < |s'.frames|
      ensures OwnerOk(s', i)
    {
      assert OwnerOk(s, i);
    }
    forall i | 0 <= i < |s'.frames|
      ensures FrameOk(s', i)
    {
      assert FrameOk(s, i);
    }
  }

  lemma FrameGoneInv(s: State, s': State, f: nat)
    requires Inv(s) && Enabled(s, FrameGone(f)) && s' == Apply(s, FrameGone(f))
    ensures Inv(s')
  {
    ParentsStay(s, s');
    LogStays(s, s');
    forall i | 0 <= i < |s'.holders|
      ensures HolderOk(s', i)
    {
      assert HolderOk(s, i);
    }
    forall i | 0 <= i < |s'.frames|
      ensures OwnerOk(s', i)
    {
      assert OwnerOk(s, i);
    }
    forall i | 0 <= i < |s'.frames|
      ensures FrameOk(s', i)
    {
      assert FrameOk(s, i);
    }
  }

  lemma FinishHolders(s: State, s': State, f: nat, r: Result)
    requires Inv(s) && Enabled(s, Finish(f, r)) && s' == FinishIt(s, f, r)
    ensures HoldersOk(s')
  {
    assert OwnerOk(s, f) && FrameOk(s, f);
    if s.frames[f].owner.Held? {
      assert HolderOk(s, s.frames[f].owner.h);
    }
    forall i | 0 <= i < |s'.holders|
      ensures HolderOk(s', i)
    {
      assert HolderOk(s, i);
    }
  }

  lemma FinishFrames(s: State, s': State, f: nat, r: Result)
    requires Inv(s) && Enabled(s, Finish(f, r)) && s' == FinishIt(s, f, r)
    ensures FramesOk(s')
  {
    assert ParentOk(s, f);
    forall i | 0 <= i < |s'.frames|
      ensures FrameOk(s', i)
    {
      assert FrameOk(s, i);
    }
  }

  lemma FinishInv(s: State, s': State, f: nat, r: Result)
    requires Inv(s) && Enabled(s, Finish(f, r)) && s' == FinishIt(s, f, r)
    ensures Inv(s')
  {
    FinishHolders(s, s', f, r);
    FinishFrames(s, s', f, r);
    assert OwnerOk(s, f) && FrameOk(s, f) && ParentOk(s, f);
    ParentsStay(s, s');
    LogStays(s, s');
    forall i | 0 <= i < |s'.frames|
      ensures OwnerOk(s', i)
    {
      assert OwnerOk(s, i);
    }
  }

  /** The child g of a resumed parent has its result, and the parent takes it for the
      first time. */
  lemma ResumedChild(s: State, f: nat) returns (a: nat, g: nat)
    requires Inv(s) && f < |s.frames| && s.frames[f].status.Resumed?
    ensures a == s.frames[f].status.a && a < |s.holders| && s.holders[a] == Holder(Awaiter, InFrame(f), Some(g), true)
    ensures g < |s.frames| && g != f && s.frames[g].status.Final? && s.frames[g].owner == Held(a)
    ensures s.frames[g].continuation == Some(f) && s.frames[g].outcome.Some?
    ensures !s.frames[g].detached && s.frames[g].started.Some? && s.frames[g].destroyed == 0
    ensures forall i :: 0 <= i < |s.log| ==> s.log[i].child != g
  {
    a := s.frames[f].status.a;
    assert FrameOk(s, f);
    assert HolderOk(s, a);
    g := s.holders[a].handle.value;
    assert OwnerOk(s, g) && FrameOk(s, g);
    forall i | 0 <= i < |s.log|
      ensures s.log[i].child != g
    {
      assert DeliveryOk(s, s.log[i]);
    }
  }

  lemma AwaitResumeHolders(s: State, s': State, f: nat)
    requires Inv(s) && Enabled(s, AwaitResume(f)) && s' == Deliveries(s, f)
    ensures HoldersOk(s')
  {
    var a, g := ResumedChild(s, f);
    forall i | 0 <= i < |s'.holders|
      ensures HolderOk(s', i)
    {
      assert HolderOk(s, i);
    }
  }

  lemma AwaitResumeLog(s: State, s': State, f: nat)
    requires Inv(s) && Enabled(s, AwaitResume(f)) && s' == Deliveries(s, f)
    ensures LogOk(s') && ParentsOk(s')
  {
    var a, g := ResumedChild(s, f);
    ParentsStay(s, s');
    forall i | 0 <= i < |s.log|
      ensures DeliveryOk(s', s.log[i])
    {
      assert DeliveryOk(s, s.log[i]);
    }
  }

  lemma AwaitResumeInv(s: State, s': State, f: nat)
    requires Inv(s) && Enabled(s, AwaitResume(f)) && s' == Deliveries(s, f)
    ensures Inv(s')
  {
    var a, g := ResumedChild(s, f);
    AwaitResumeHolders(s, s', f);
    AwaitResumeLog(s, s', f);
    forall i | 0 <= i < |s'.frames|
      ensures OwnerOk(s', i)
    {
      assert OwnerOk(s, i);
    }
    forall i | 0 <= i < |s'.frames|
      ensures FrameOk(s', i)
    {
      assert FrameOk(s, i);
    }
  }

  lemma InvStep(s: State, step: Step)
    requires Inv(s) && Enabled(s, step)
    ensures Inv(Apply(s, step))
  {
    var s' := Apply(s, step);
    match step
    case Call(home) => CallInv(s, s', home);
    case MoveConstruct(h, home) => MoveConstructInv(s, s', h, home);
    case MoveAssign(dst, src) => MoveAssignInv(s, s', dst, src);
    case Drop(h) => DropInv(s, s', h);
    case Spawn(h) => SpawnInv(s, s', h);
    case AwaitTask(f, h) => AwaitTaskInv(s, s', f, h);
    case Finish(f, result) => FinishInv(s, s', f, result);
    case AwaitResume(f) => AwaitResumeInv(s, s', f);
    case FrameGone(f) => FrameGoneInv(s, s', f);
    case Resume(f) => StatusInv(s, s', f, Running);
    case AwaitLeaf(f) => StatusInv(s, s', f, AtLeaf(s.frames[f].scope));
    case LeafDone(f) => StatusInv(s, s', f, Queued);
  }

  lemma {:induction false} InvRun(s: State, steps: seq<Step>)
    requires Inv(s) && Legal(s, steps)
    ensures Inv(Exec(s, steps))
    decreases |steps|
  {
    if steps == [] {
    } else {
      InvStep(s, steps[0]);
      InvRun(Apply(s, steps[0]), steps[1..]);
    }
  }

  lemma Reached(steps: seq<Step>)
    requires Legal(START, steps)
    ensures Inv(Exec(START, steps))
  {
    InvRun(START, steps);
  }

  // ----- ownership -----

  /** A frame that is not being destroyed has one owner: itself if detached, else one live
      object, which is a task object exactly as long as the frame was never started, and
      which lives outside or in a frame that still exists. No object holds a frame whose
      destruction has begun, and no frame is destroyed twice. */
  lemma OneOwner(steps: seq<Step>, f: nat)
    requires Legal(START, steps) && f < |Exec(START, steps).frames|
    ensures var e := Exec(START, steps); var fr := e.frames[f];
      && (fr.detached || Gone(fr.status) ==> forall h: nat :: !Holds(e, h, f))
      && (!fr.detached && !Gone(fr.status) ==> exists h: nat ::
            && Holds(e, h, f) && (forall i: nat :: Holds(e, i, f) ==> i == h)
            && (e.holders[h].kind.TaskObject? <==> fr.started.None?)
            && (e.holders[h].home.InFrame? ==> e.holders[h].home.f < |e.frames| && e.frames[e.holders[h].home.f].destroyed == 0))
      && fr.destroyed == (if fr.status.Destroyed? then 1 else 0)
  {
    Reached(steps);
    var e := Exec(START, steps);
    assert OwnerOk(e, f) && FrameOk(e, f);
    forall i: nat | Holds(e, i, f)
      ensures e.frames[f].owner == Held(i)
    {
      assert HolderOk(e, i);
    }
    if e.frames[f].owner.Held? {
      var h := e.frames[f].owner.h;
      assert HolderOk(e, h);
      if e.holders[h].home.InFrame? {
        assert FrameOk(e, e.holders[h].home.f);
      }
      assert Holds(e, h, f);
    }
  }

  /** A coroutine that was ever resumed is destroyed only after its body has ended, never in
      mid-await; and a root moreover only after its outcome was sent, from which a join
      makes what an await of the same frame would have given. */
  lemma DestroyedAfterTheEnd(steps: seq<Step>, f: nat)
    requires Legal(START, steps) && f < |Exec(START, steps).frames|
    ensures var fr := Exec(START, steps).frames[f];
      fr.started.Some? && Gone(fr.status) ==>
        && fr.outcome.Some?
        && (fr.detached ==>
              && fr.sent.Some? && fr.sent.value.exception == fr.outcome.value.exception
              && fr.sent.value.value == (if fr.outcome.value.exception.Some? then None else fr.outcome.value.value)
              && Joined(fr.sent.value) == Deliver(fr.outcome.value))
  {
    Reached(steps);
    assert FrameOk(Exec(START, steps), f);
  }

  /** What co_await gave a parent is its own child's exception if there is one and else its
      value, and no child is delivered twice. */
  lemma AwaitIsFaithful(steps: seq<Step>, i: nat)
    requires Legal(START, steps) && i < |Exec(START, steps).log|
    ensures var e := Exec(START, steps); var d := e.log[i];
      && d.child < |e.frames| && e.frames[d.child].continuation == Some(d.parent)
      && e.frames[d.child].outcome.Some?
      && (var r := e.frames[d.child].outcome.value;
          match r.exception
          case Some(x) => d.what == Throw(x)
          case None => d.what == Value(r.value))
      && (forall j :: 0 <= j < |e.log| && j != i ==> e.log[j].child != d.child)
  {
    Reached(steps);
    assert DeliveryOk(Exec(START, steps), Exec(START, steps).log[i]);
  }

  // ----- scopes -----

  /** A root, and below it each frame's child: an await chain of any depth. */
  ghost predicate Chain(s: State, path: seq<nat>) {
    && path != [] && (forall i :: 0 <= i < |path| ==> path[i] < |s.frames|)
    && s.frames[path[0]].detached
    && (forall i :: 0 < i < |path| ==> s.frames[path[i]].continuation == Some(path[i - 1]))
  }

  lemma {:induction false} ChainScope(s: State, path: seq<nat>, i: nat)
    requires Inv(s) && Chain(s, path) && i < |path|
    ensures s.frames[path[i]].scope == Some(path[0])
  {
    if i == 0 {
      assert FrameOk(s, path[0]);
    } else {
      ChainScope(s, path, i - 1);
      assert ParentOk(s, path[i]);
    }
  }

  /** Every frame of an await chain carries the scope of the root it hangs from. */
  lemma ScopeInherited(steps: seq<Step>, path: seq<nat>)
    requires Legal(START, steps) && Chain(Exec(START, steps), path)
    ensures forall i :: 0 <= i < |path| ==> Exec(START, steps).frames[path[i]].scope == Some(path[0])
  {
    Reached(steps);
    forall i | 0 <= i < |path|
      ensures Exec(START, steps).frames[path[i]].scope == Some(path[0])
    {
      ChainScope(Exec(START, steps), path, i);
    }
  }

  ghost function RootOf(s: State, f: nat): (r: nat)
    requires Inv(s) && f < |s.frames| && s.frames[f].started.Some?
    ensures r < |s.frames| && s.frames[r].detached && s.frames[f].scope == Some(r)
    decreases s.frames[f].started.value
  {
    assert FrameOk(s, f) && ParentOk(s, f);
    if s.frames[f].detached then f else RootOf(s, s.frames[f].continuation.value)
  }

  ghost function ChildOf(s: State, p: nat): (g: nat)
    requires Inv(s) && p < |s.frames| && s.frames[p].status.Awaiting?
    ensures s.frames[p].status.a < |s.holders| && s.holders[s.frames[p].status.a].handle == Some(g)
    ensures g < |s.frames| && Active(s.frames[g].status) && s.frames[g].scope == s.frames[p].scope
    ensures s.frames[p].started.Some? && s.frames[g].started.Some?
    ensures s.frames[p].started.value < s.frames[g].started.value < s.clock
  {
    assert FrameOk(s, p) && HolderOk(s, s.frames[p].status.a);
    var g := s.holders[s.frames[p].status.a].handle.value;
    assert ParentOk(s, g) && FrameOk(s, g);
    g
  }

  /** The end of the await chain that goes down from f. */
  ghost function Tip(s: State, f: nat): (t: nat)
    requires Inv(s) && f < |s.frames| && Active(s.frames[f].status) && s.frames[f].started.Some?
    ensures t < |s.frames| && Active(s.frames[t].status) && !s.frames[t].status.Awaiting?
    ensures s.frames[t].scope == s.frames[f].scope
    decreases s.clock - s.frames[f].started.value
  {
    if s.frames[f].status.Awaiting? then Tip(s, ChildOf(s, f)) else f
  }

  lemma {:induction false} TipOfRoot(s: State, f: nat)
    requires Inv(s) && f < |s.frames| && Active(s.frames[f].status) && s.frames[f].started.Some?
    ensures var r := RootOf(s, f);
      Active(s.frames[r].status) && s.frames[r].started.Some? && Tip(s, r) == Tip(s, f)
    decreases s.frames[f].started.value
  {
    if s.frames[f].detached {
    } else {
      assert OwnerOk(s, f) && ParentOk(s, f) && FrameOk(s, f);
      assert HolderOk(s, s.frames[f].owner.h);
      TipOfRoot(s, s.frames[f].continuation.value);
    }
  }

  /** A started, unfinished frame with the scope of root r that waits for no child. */
  predicate AtTip(s: State, g: nat, r: nat) {
    g < |s.frames| && Active(s.frames[g].status) && !s.frames[g].status.Awaiting? && s.frames[g].scope == Some(r)
  }

  /** A root that is not being destroyed has exactly one frame under its scope that waits
      for no child, however deep the chain. */
  lemma OneTip(steps: seq<Step>, r: nat)
    requires Legal(START, steps) && r < |Exec(START, steps).frames|
    requires Exec(START, steps).frames[r].detached && !Gone(Exec(START, steps).frames[r].status)
    ensures exists g: nat :: AtTip(Exec(START, steps), g, r) && forall i: nat :: AtTip(Exec(START, steps), i, r) ==> i == g
  {
    Reached(steps);
    var e := Exec(START, steps);
    assert OwnerOk(e, r) && FrameOk(e, r);
    var g := Tip(e, r);
    forall i: nat | AtTip(e, i, r)
      ensures i == g
    {
      assert FrameOk(e, i);
      TipOfRoot(e, i);
    }
    assert AtTip(e, g, r);
  }

  /** A frame suspended at a leaf gave the leaf the scope of a live root, the one whose
      chain it ends: abort of that root reaches this leaf and no other. */
  lemma AbortReachesLeaf(steps: seq<Step>, g: nat)
    requires Legal(START, steps) && g < |Exec(START, steps).frames| && Exec(START, steps).frames[g].status.AtLeaf?
    ensures var e := Exec(START, steps); var given := e.frames[g].status.given;
      && given.Some? && given.value < |e.frames|
      && e.frames[given.value].detached && Active(e.frames[given.value].status)
      && forall i :: 0 <= i < |e.frames| && e.frames[i].status == AtLeaf(given) ==> i == g
  {
    Reached(steps);
    var e := Exec(START, steps);
    assert FrameOk(e, g);
    var r := RootOf(e, g);
    TipOfRoot(e, g);
    assert OwnerOk(e, r);
    OneTip(steps, r);
    forall i | 0 <= i < |e.frames| && e.frames[i].status == AtLeaf(Some(r))
      ensures i == g
    {
      assert FrameOk(e, i);
      assert AtTip(e, i, r) && AtTip(e, g, r);
    }
  }
}
