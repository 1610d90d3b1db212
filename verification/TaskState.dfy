/** Tasks, awaiters and the coroutine frames they hold, on the heap. A frame's parameters
    are task objects inside it: destroying the frame destroys them, last first, and with
    them the frames they hold, to any depth. */
module TaskState {
  import opened Options
  import opened Queues
  import opened RuntimeState
  import opened TaskProtocol

  class Promise {
    var continuation: Frame?
    var detached: bool
    var scope: Option<nat>
    var value: Option<nat>
    var exception: Option<nat>
    var sent: Option<Outcome>
    /** owner_rt_, here its registry, and the promise's node in it; null unless spawned. */
    var owner: Registry?
    var node: RootNode?

    constructor ()
      ensures continuation == null && !detached && scope == None && value == None && exception == None && sent == None
      ensures owner == null && node == null
    {
      continuation, detached, scope, value, exception, sent := null, false, None, None, None, None;
      owner, node := null, null;
    }
  }

  /** Frames and Tasks are what lies in the frame at any depth, and inFrames and inTasks
      what of it belongs to each parameter. */
  class Frame {
    const promise: Promise
    const params: seq<Task>
    var done: bool
    var alive: bool
    ghost const Frames: set<Frame>
    ghost const Tasks: set<Task>
    ghost const inFrames: seq<set<Frame>>
    ghost const inTasks: seq<set<Task>>

    /** A call of the coroutine: the parameters are in the frame, nothing has run yet. */
    constructor (ps: seq<Task>, ghost fs: seq<set<Frame>>, ghost ts: seq<set<Task>>)
      requires |ps| == |fs| == |ts|
      requires forall k :: 0 <= k < |ps| ==> PartOk(ps[k], fs[k], ts[k])
      requires forall j, k :: 0 <= j < k < |ps| ==> ps[j] != ps[k] && fs[j] !! fs[k] && ts[j] !! ts[k] && ps[j] !in ts[k] && ps[k] !in ts[j]
      ensures Valid() && params == ps && !done && fresh(this) && fresh(promise)
      ensures Frames == {this} + (set s <- fs, f <- s :: f)
      ensures Tasks == (set t <- ps) + (set s <- ts, t <- s :: t)
    {
      promise := new Promise();
      params, inFrames, inTasks := ps, fs, ts;
      Frames := {this} + (set s <- fs, f <- s :: f);
      Tasks := (set t <- ps) + (set s <- ts, t <- s :: t);
      done, alive := false, true;
    }

    ghost predicate Apart(j: nat, k: nat)
      requires |params| == |inFrames| == |inTasks| && j < |params| && k < |params|
    {
      && params[j] != params[k] && inFrames[j] !! inFrames[k] && inTasks[j] !! inTasks[k]
      && params[j] !in inTasks[k] && params[k] !in inTasks[j]
    }

    /** Each parameter has its own part of the frame: no two objects hold one frame. */
    ghost predicate Shape() {
      && this in Frames && |params| == |inFrames| == |inTasks|
      && (forall k :: 0 <= k < |params| ==>
            params[k] in Tasks && inFrames[k] <= Frames && this !in inFrames[k] && inTasks[k] <= Tasks)
      && (forall j, k :: 0 <= j < |params| && 0 <= k < |params| && j != k ==> Apart(j, k))
      && (forall f :: f in Frames && f != this ==> exists k :: 0 <= k < |params| && f in inFrames[k])
    }

    ghost predicate Valid()
      reads this, Frames, Tasks
      decreases Frames, 0
    {
      Shape() && alive && forall k :: 0 <= k < |params| ==> Intact(k)
    }

    ghost predicate Intact(k: nat)
      requires Shape() && k < |params|
      reads params[k], inFrames[k], inTasks[k]
      decreases inFrames[k], 2
    {
      PartOk(params[k], inFrames[k], inTasks[k])
    }

    method DropParameter(i: nat)
      requires Shape() && i < |params| && Intact(i)
      modifies params[i], inFrames[i], inTasks[i]
      ensures AllGone(inFrames[i])
      ensures forall k :: 0 <= k < |params| && k != i && old(Intact(k)) ==> Intact(k)
      ensures forall k :: 0 <= k < |params| && k != i && old(AllGone(inFrames[k])) ==> AllGone(inFrames[k])
      decreases inFrames[i], 2
    {
      params[i].Drop();
      forall k | 0 <= k < |params| && k != i
        ensures old(Intact(k)) ==> Intact(k)
        ensures old(AllGone(inFrames[k])) ==> AllGone(inFrames[k])
      {
        assert Apart(k, i);
      }
    }

    /** coroutine_handle::destroy: every frame that lies in this one is gone, and each was
        alive when it was destroyed. */
    method Destroy()
      requires Valid()
      modifies Frames, Tasks
      ensures AllGone(Frames)
      decreases Frames, 0
    {
      var i := |params|;
      while i > 0
        invariant Shape() && 0 <= i <= |params| && alive
        invariant forall k :: 0 <= k < i ==> Intact(k)
        invariant forall k :: i <= k < |params| ==> AllGone(inFrames[k])
      {
        i := i - 1;
        DropParameter(i);
      }
      alive := false;
    }

    /** Leaves the registry: while the frame, and with it the node, still exists, and after
        the outcome was sent. k is the node's place in the list. */
    method Unregister(ghost k: nat)
      requires alive && promise.sent.Some? && Registered(k)
      modifies promise.owner, if promise.owner != null then promise.owner.Roots else []
      ensures promise.owner != null ==>
        && promise.owner.Valid() && promise.owner.Roots == Without(old(promise.owner.Roots), k)
        && promise.owner.liveRoots == old(promise.owner.liveRoots) - 1
    {
      if promise.owner != null {
        var drained := promise.owner.Unregister(promise.node, k);
      }
    }

    ghost predicate Registered(k: nat)
      reads promise, promise.owner, if promise.owner != null then promise.owner.Roots else []
    {
      promise.owner != null ==>
        promise.owner.Valid() && k < |promise.owner.Roots| && promise.owner.Roots[k] == promise.node
    }

    /** final_suspend: a root sends its outcome, leaves the registry, and destroys its own
        frame; any other frame stays, and names the coroutine to go on with. */
    method FinalSuspend(ghost k: nat) returns (next: Frame?)
      requires Valid() && (promise.detached ==> Registered(k))
      modifies Frames, Tasks, promise
      modifies promise.owner, if promise.owner != null then promise.owner.Roots else []
      ensures old(promise.detached) ==>
        && next == null && AllGone(Frames)
        && promise.sent.Some? && promise.sent.value.exception == old(promise.exception)
        && promise.sent.value.value == (if old(promise.exception).Some? then None else old(promise.value))
      ensures old(promise.detached) && old(promise.owner) != null ==>
        && old(promise.owner).Valid() && old(promise.owner).Roots == Without(old(promise.owner.Roots), k)
        && old(promise.owner).liveRoots == old(promise.owner.liveRoots) - 1
      ensures !old(promise.detached) ==>
        && next == promise.continuation && Valid() && done && unchanged(promise)
        && (promise.owner != null ==> unchanged(promise.owner))
    {
      if promise.detached {
        promise.sent := Some(if promise.exception.Some? then Outcome(None, promise.exception)
                             else Outcome(promise.value, None));
        Unregister(k);
        Destroy();
        return null;
      }
      done := true;
      return promise.continuation;
    }

    /** A body of this frame awaits child: the child gets the scope of this frame, and the
        handle goes into the awaiter. */
    method AwaitTask(child: Task) returns (a: Awaiter)
      requires child.handle != null
      modifies child, child.handle.promise`scope
      ensures a.handle == old(child.handle) && child.handle == null && fresh(a)
      ensures a.handle.promise.scope == old(promise.scope)
    {
      child.handle.promise.scope := promise.scope;
      a := new Awaiter(child.handle);
      child.handle := null;
    }
  }

  ghost predicate AllGone(frames: set<Frame>)
    reads frames
  {
    forall f :: f in frames ==> !f.alive
  }

  /** Task object t holds nothing, or a frame with just these frames and tasks in it. */
  ghost predicate PartOk(t: Task, frames: set<Frame>, tasks: set<Task>)
    reads t, frames, tasks
    decreases frames, 1
  {
    && t !in tasks
    && (if t.handle == null then frames == {} && tasks == {}
        else t.handle in frames && t.handle.Frames == frames && t.handle.Tasks == tasks && t.handle.Valid())
  }

  class Task {
    var handle: Frame?

    constructor (h: Frame?)
      ensures handle == h
    {
      handle := h;
    }

    constructor Move(o: Task)
      modifies o
      ensures handle == old(o.handle) && o.handle == null
    {
      handle := o.handle;
      new;
      o.handle := null;
    }

    /** The destructor. */
    method Drop()
      requires handle != null ==> handle.Valid() && this !in handle.Tasks
      modifies this
      modifies if handle != null then handle.Frames else {}
      modifies if handle != null then handle.Tasks else {}
      ensures handle == null
      ensures old(handle) != null ==> AllGone(old(handle).Frames)
      decreases if handle != null then handle.Frames else {}, 1
    {
      if handle != null {
        handle.Destroy();
      }
      handle := null;
    }

    /** Move assignment. The old frame is destroyed first, so o must not lie in it; then
        what o held is still whole. */
    method Assign(o: Task)
      requires this != o && handle != null ==>
        && handle.Valid() && this !in handle.Tasks && o !in handle.Tasks
        && (o.handle != null ==> handle.Frames !! o.handle.Frames && handle.Tasks !! o.handle.Tasks && this !in o.handle.Tasks)
      requires o.handle != null ==> o.handle.Valid() && o !in o.handle.Tasks && (this != o ==> this !in o.handle.Tasks)
      modifies this, o
      modifies if this != o && handle != null then handle.Frames else {}
      modifies if this != o && handle != null then handle.Tasks else {}
      ensures handle == old(o.handle)
      ensures this != o ==> o.handle == null && (old(handle) != null ==> AllGone(old(handle).Frames))
      ensures handle != null ==> handle.Valid() && this !in handle.Tasks
    {
      if this != o {
        if handle != null {
          handle.Destroy();
        }
        handle := o.handle;
        o.handle := null;
      }
    }

    method Release() returns (h: Frame?)
      modifies this
      ensures h == old(handle) && handle == null
    {
      h := handle;
      handle := null;
    }

    method Detach() returns (h: Frame?)
      modifies this
      modifies (if handle != null then {handle.promise} else {})`detached
      ensures h == old(handle) && handle == null
      ensures h != null ==> h.promise.detached
    {
      h := Release();
      if h != null {
        h.promise.detached := true;
      }
    }
  }

  class Awaiter {
    var handle: Frame?

    constructor (h: Frame)
      ensures handle == h
    {
      handle := h;
    }

    method AwaitReady() returns (ready: bool)
      ensures ready <==> handle == null || handle.done
    {
      ready := handle == null || handle.done;
    }

    /** The child starts, and will go on with its caller. */
    method AwaitSuspend(caller: Frame) returns (next: Frame)
      requires handle != null
      modifies handle.promise`continuation
      ensures next == handle && next.promise.continuation == caller
    {
      handle.promise.continuation := caller;
      next := handle;
    }

    /** await_resume and the end of the awaiter: the result, and the child is gone. */
    method AwaitResume() returns (r: Delivered)
      requires handle != null && handle.Valid()
      modifies this, handle.Frames, handle.Tasks
      ensures match old(handle.promise.exception)
        case Some(e) => r == Throw(e)
        case None => r == Value(old(handle.promise.value))
      ensures handle == null && AllGone(old(handle).Frames)
    {
      if handle.promise.exception.Some? {
        r := Throw(handle.promise.exception.value);
      } else {
        r := Value(handle.promise.value);
      }
      handle.Destroy();
      handle := null;
    }
  }
}
