/** Join: a root's frame at one end of a oneshot channel, the awaiting join at the other.
    What the root does with its sender is read off a run of TaskProtocol; the channel, the
    receiver and its scope run as in OneshotProtocol, interleaved in any way. */
module JoinProtocol {
  import C = OneshotCore
  import G = GuardStates
  import O = OneshotProtocol
  import opened Options
  import T = TaskProtocol

  type Action = O.Step<T.Outcome>

  function FrameAt(s: T.State, f: nat): T.Frame {
    if f < |s.frames| then s.frames[f] else T.Frame(T.Initial, false, None, None, None, None, 0, None, T.Teardown)
  }

  /** What one step of the tasks does with the sender in the promise of root f: it sends
      when the frame sends, and the sender goes with the frame. */
  function SenderActions(s: T.State, step: T.Step, f: nat): seq<Action>
    requires T.Enabled(s, step)
  {
    var x, y := FrameAt(s, f), FrameAt(T.Apply(s, step), f);
    (if x.sent.None? && y.sent.Some? then [O.Send(y.sent.value)] else []) +
    (if y.detached && x.destroyed < y.destroyed then [O.SenderDrop] else [])
  }

  ghost function ActionsIn(s: T.State, steps: seq<T.Step>, f: nat): seq<Action>
    requires T.Legal(s, steps)
    decreases |steps|
  {
    if steps == [] then []
    else SenderActions(s, steps[0], f) + ActionsIn(T.Apply(s, steps[0]), steps[1..], f)
  }

  /** All that the state of a frame says about its sender. */
  function Past(x: T.Frame): seq<Action> {
    (if x.sent.Some? then [O.Send(x.sent.value)] else []) + (if x.detached && x.destroyed > 0 then [O.SenderDrop] else [])
  }

  /** A frame keeps what it sent, and stays destroyed. */
  predicate Keeps(x: T.Frame, y: T.Frame) {
    && (x.sent.Some? ==> y.sent == x.sent) && x.destroyed <= y.destroyed
    && (x.detached ==> y.detached) && (x.destroyed > 0 ==> x.detached == y.detached)
  }

  lemma FinishKeeps(s: T.State, g: nat, r: T.Result, f: nat)
    requires T.Is(s, g, T.Running) && (f < |s.frames| ==> T.FrameOk(s, f))
    ensures Keeps(FrameAt(s, f), FrameAt(T.FinishIt(s, g, r), f))
  {
  }

  lemma SpawnKeeps(s: T.State, h: nat, f: nat)
    requires T.Inv(s) && h < |s.holders| && s.holders[h].kind.TaskObject?
    ensures Keeps(FrameAt(s, f), FrameAt(T.SpawnIt(s, h), f))
  {
    assert T.HolderOk(s, h);
    if f < |s.frames| {
      assert T.FrameOk(s, f);
    }
  }

  lemma AwaitKeeps(s: T.State, step: T.Step, f: nat)
    requires T.Enabled(s, step) && step.AwaitTask?
    ensures Keeps(FrameAt(s, f), FrameAt(T.Apply(s, step), f))
  {
  }

  lemma ObjectsKeep(s: T.State, step: T.Step, f: nat)
    requires T.Enabled(s, step) && (step.MoveConstruct? || step.MoveAssign? || step.Drop?)
    ensures Keeps(FrameAt(s, f), FrameAt(T.Apply(s, step), f))
  {
  }

  lemma OthersKeep(s: T.State, step: T.Step, f: nat)
    requires T.Enabled(s, step)
    requires step.Call? || step.Resume? || step.AwaitLeaf? || step.LeafDone? || step.AwaitResume? || step.FrameGone?
    ensures Keeps(FrameAt(s, f), FrameAt(T.Apply(s, step), f))
  {
  }

  lemma FrameKeeps(s: T.State, step: T.Step, f: nat)
    requires T.Inv(s) && T.Enabled(s, step)
    ensures Keeps(FrameAt(s, f), FrameAt(T.Apply(s, step), f))
  {
    assert f < |s.frames| ==> T.FrameOk(s, f);
    match step
    case Spawn(h) => SpawnKeeps(s, h, f);
    case Finish(g, r) => FinishKeeps(s, g, r, f);
    case AwaitTask(_, _) => AwaitKeeps(s, step, f);
    case MoveConstruct(_, _) => ObjectsKeep(s, step, f);
    case MoveAssign(_, _) => ObjectsKeep(s, step, f);
    case Drop(_) => ObjectsKeep(s, step, f);
    case _ => OthersKeep(s, step, f);
  }

  lemma SentFirst(s: T.State, f: nat)
    requires T.Inv(s)
    ensures var x := FrameAt(s, f);
      x.destroyed <= 1 && (x.detached && x.destroyed > 0 ==> x.sent.Some? && x.outcome.Some?)
      && (x.sent.Some? ==> x.detached && x.outcome.Some? && x.sent.value == T.RootOutcome(x.outcome.value))
  {
    if f < |s.frames| {
      assert T.FrameOk(s, f);
    }
  }

  lemma PastGrows(s: T.State, step: T.Step, f: nat)
    requires T.Inv(s) && T.Enabled(s, step)
    ensures Past(FrameAt(s, f)) + SenderActions(s, step, f) == Past(FrameAt(T.Apply(s, step), f))
  {
    T.InvStep(s, step);
    FrameKeeps(s, step, f);
    SentFirst(s, f);
    SentFirst(T.Apply(s, step), f);
  }

  lemma Regroup(a: seq<Action>, b: seq<Action>, c: seq<Action>)
    ensures a + (b + c) == a + b + c
  {
  }

  lemma {:induction false} PastIsActions(s: T.State, steps: seq<T.Step>, f: nat)
    requires T.Inv(s) && T.Legal(s, steps)
    ensures T.Inv(T.Exec(s, steps))
    ensures Past(FrameAt(s, f)) + ActionsIn(s, steps, f) == Past(FrameAt(T.Exec(s, steps), f))
    decreases |steps|
  {
    if steps == [] {
    } else {
      var s' := T.Apply(s, steps[0]);
      T.InvStep(s, steps[0]);
      PastGrows(s, steps[0], f);
      PastIsActions(s', steps[1..], f);
      Regroup(Past(FrameAt(s, f)), SenderActions(s, steps[0], f), ActionsIn(s', steps[1..], f));
    }
  }

  /** In every run a root uses its sender in this way only: it sends once, the outcome of
      its body, and then the sender goes. */
  lemma RootSendsOnce(steps: seq<T.Step>, f: nat)
    requires T.Legal(T.START, steps) && f < |T.Exec(T.START, steps).frames|
    ensures var x := T.Exec(T.START, steps).frames[f]; var a := ActionsIn(T.START, steps, f);
      if x.sent.None? then a == []
      else
        && x.outcome.Some? && x.sent.value.exception == x.outcome.value.exception
        && x.sent.value.value == (if x.outcome.value.exception.Some? then None else x.outcome.value.value)
        && a <= [O.Send(x.sent.value), O.SenderDrop] && a != []
  {
    PastIsActions(T.START, steps, f);
    SentFirst(T.Exec(T.START, steps), f);
    assert Past(FrameAt(T.START, f)) + ActionsIn(T.START, steps, f) == ActionsIn(T.START, steps, f);
  }

  // ----- the channel -----

  /** The steps of a channel run that its sender takes of itself. */
  function SenderPart<V>(steps: seq<O.Step<V>>): seq<O.Step<V>> {
    if steps == [] then []
    else (if steps[0].Send? || steps[0].SenderDrop? then [steps[0]] else []) + SenderPart(steps[1..])
  }

  ghost predicate NoCancel<V>(steps: seq<O.Step<V>>) {
    forall i :: 0 <= i < |steps| ==> !steps[i].Swap?
  }

  /** A sender that acts so keeps to RootSends. */
  lemma {:induction false} KeepsToRootSends<V>(s: O.State<V>, steps: seq<O.Step<V>>, v: V)
    requires O.Legal(s, steps) && NoCancel(steps)
    requires s.sends != [] || SenderPart(steps) <= [O.Send(v), O.SenderDrop]
    ensures O.RootSends(s, steps)
    decreases |steps|
  {
    if steps == [] {
    } else {
      if steps[0].Send? || steps[0].SenderDrop? {
        assert SenderPart(steps)[0] == steps[0];
      }
      KeepsToRootSends(O.Apply(s, steps[0]), steps[1..], v);
    }
  }

  lemma {:induction false} SentBySender<V>(s: O.State<V>, steps: seq<O.Step<V>>, i: nat)
    requires O.Legal(s, steps) && |s.sends| <= i < |O.Exec(s, steps).sends|
    ensures O.Send(O.Exec(s, steps).sends[i].v) in SenderPart(steps)
    decreases |steps|
  {
    if steps == [] {
    } else {
      var s' := O.Apply(s, steps[0]);
      if i < |s'.sends| {
        SendsStay(s', steps[1..], i);
      } else {
        SentBySender(s', steps[1..], i);
      }
    }
  }

  lemma {:induction false} SendsStay<V>(s: O.State<V>, steps: seq<O.Step<V>>, i: nat)
    requires O.Legal(s, steps) && i < |s.sends|
    ensures i < |O.Exec(s, steps).sends| && O.Exec(s, steps).sends[i] == s.sends[i]
    decreases |steps|
  {
    if steps == [] {
    } else {
      SendsStay(O.Apply(s, steps[0]), steps[1..], i);
    }
  }

  /** Join is faithful: over any channel run whose sender is driven by a root, as far as
      that has come, a co_await of the receiver whose own scope is not cancelled never
      yields cancelled or channel_closed; it yields an outcome of which join makes the
      exception that the root's body ended with, if there is one, and else its value. */
  lemma JoinIsFaithful(tasks: seq<T.Step>, f: nat, s: O.State<T.Outcome>, steps: seq<Action>)
    requires T.Legal(T.START, tasks) && f < |T.Exec(T.START, tasks).frames|
    requires O.Init(s) && O.Legal(s, steps) && NoCancel(steps)
    requires SenderPart(steps) <= ActionsIn(T.START, tasks, f)
    requires O.Exec(s, steps).receiver.Done?
    ensures var x := T.Exec(T.START, tasks).frames[f]; var r := O.Exec(s, steps).receiver.result;
      && x.outcome.Some? && r.Value?
      && match x.outcome.value.exception
         case Some(e) => T.Joined(r.v) == T.Throw(e)
         case None => T.Joined(r.v) == T.Value(x.outcome.value.value)
  {
    RootSendsOnce(tasks, f);
    var x := T.Exec(T.START, tasks).frames[f];
    var v := if x.sent.Some? then x.sent.value else T.Outcome(None, None);
    KeepsToRootSends(s, steps, v);
    O.JoinIsFaithful(s, steps);
    SentBySender(s, steps, 0);
  }

  /** Such runs exist, for every way in which a body can end: a spawned root finishes, and
      the join awaits its outcome. */
  lemma JoinHappens(r: T.Result) returns (tasks: seq<T.Step>, s: O.State<T.Outcome>, steps: seq<Action>)
    requires r.value.Some? || r.exception.Some?
    ensures T.Legal(T.START, tasks) && |T.Exec(T.START, tasks).frames| == 1
    ensures O.Init(s) && O.Legal(s, steps) && NoCancel(steps)
    ensures SenderPart(steps) <= ActionsIn(T.START, tasks, 0)
    ensures O.Exec(s, steps).receiver ==
      O.Done(C.Value(if r.exception.Some? then T.Outcome(None, r.exception) else T.Outcome(r.value, None)))
  {
    tasks := RootRuns(r);
    s, steps := JoinAwaits(T.RootOutcome(r));
  }

  /** One root, spawned and running, and the empty task object it came from. */
  const RUNNING := T.State(
    [T.Frame(T.Running, true, Some(0), None, None, None, 0, Some(0), T.Itself)],
    [T.Holder(T.TaskObject, T.Outside, None, true)], [], 1)

  lemma RootStarts(rest: seq<T.Step>) returns (tasks: seq<T.Step>)
    requires T.Legal(RUNNING, rest)
    ensures T.Legal(T.START, tasks) && T.Exec(T.START, tasks) == T.Exec(RUNNING, rest)
    ensures ActionsIn(T.START, tasks, 0) == ActionsIn(RUNNING, rest, 0)
  {
    var s1 := T.Apply(T.START, T.Call(T.Outside));
    var s2 := T.Apply(s1, T.Spawn(0));
    assert T.Apply(s2, T.Resume(0)) == RUNNING;
    tasks := Before(s2, T.Resume(0), rest, 0);
    tasks := Before(s1, T.Spawn(0), tasks, 0);
    tasks := Before(T.START, T.Call(T.Outside), tasks, 0);
  }

  lemma RootRuns(r: T.Result) returns (tasks: seq<T.Step>)
    requires r.value.Some? || r.exception.Some?
    ensures T.Legal(T.START, tasks) && |T.Exec(T.START, tasks).frames| == 1
    ensures ActionsIn(T.START, tasks, 0) == [O.Send(T.RootOutcome(r))]
  {
    tasks := Before(RUNNING, T.Finish(0, r), [], 0);
    tasks := RootStarts(tasks);
  }

  lemma Before(s: T.State, step: T.Step, rest: seq<T.Step>, f: nat) returns (tasks: seq<T.Step>)
    requires T.Enabled(s, step) && T.Legal(T.Apply(s, step), rest)
    ensures T.Legal(s, tasks) && T.Exec(s, tasks) == T.Exec(T.Apply(s, step), rest)
    ensures ActionsIn(s, tasks, f) == SenderActions(s, step, f) + ActionsIn(T.Apply(s, step), rest, f)
  {
    tasks := [step] + rest;
    assert tasks[1..] == rest;
  }

  lemma JoinAwaits<V>(v: V) returns (s: O.State<V>, steps: seq<O.Step<V>>)
    ensures O.Init(s) && O.Legal(s, steps) && NoCancel(steps) && SenderPart(steps) == [O.Send(v)]
    ensures O.Exec(s, steps).receiver == O.Done(C.Value(v))
  {
    s := O.State(C.Empty(), O.Sending, O.Unawaited, O.Open, false, G.Idle, false, 0, false, []);
    var s1 := O.Apply(s, O.Send(v));
    var s2 := O.Apply(s1, O.Await);
    var s3 := O.Apply(s2, O.Check);
    var s4 := O.Apply(s3, O.Disarm);
    steps := [];
    steps := First(s4, O.FinishAwait, steps);
    steps := First(s3, O.Disarm, steps);
    steps := First(s2, O.Check, steps);
    steps := First(s1, O.Await, steps);
    steps := First(s, O.Send(v), steps);
  }

  lemma First<V>(s: O.State<V>, step: O.Step<V>, rest: seq<O.Step<V>>) returns (steps: seq<O.Step<V>>)
    requires O.Enabled(s, step) && O.Legal(O.Apply(s, step), rest) && NoCancel(rest) && !step.Swap?
    ensures O.Legal(s, steps) && O.Exec(s, steps) == O.Exec(O.Apply(s, step), rest) && NoCancel(steps)
    ensures SenderPart(steps) == (if step.Send? || step.SenderDrop? then [step] else []) + SenderPart(rest)
  {
    steps := [step] + rest;
    assert steps[1..] == rest;
  }
}
