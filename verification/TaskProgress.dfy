/** What started comes to its end, whatever state the tasks are in; and what one operation
    brings in a state that a run reaches. */
module TaskProgress {
  import opened Options
  import opened Sums
  import opened TaskProtocol

  // ----- how far everything is from its end -----

  function FrameLeft(status: Status): nat {
    match status
    case Initial => 9
    case Awaiting(_) => 8
    case AtLeaf(_) => 8
    case Queued => 7
    case Resumed(_) => 7
    case Running => 6
    case Final => 2
    case Dying => 1
    case Destroyed => 0
  }

  function FramesLeft(frames: seq<Frame>): seq<int> {
    seq(|frames|, f requires 0 <= f < |frames| => FrameLeft(frames[f].status))
  }

  function HoldersLeft(holders: seq<Holder>): seq<int> {
    seq(|holders|, h requires 0 <= h < |holders| => if holders[h].live then 1 else 0)
  }

  function Left(s: State): int {
    Sum(FramesLeft(s.frames)) + Sum(HoldersLeft(s.holders))
  }

  lemma LeftNonNegative(s: State)
    ensures Left(s) >= 0
  {
    SumNonNegative(FramesLeft(s.frames));
    SumNonNegative(HoldersLeft(s.holders));
  }

  /** No frame and no object goes backwards. */
  ghost predicate Nearer(s: State, s': State) {
    && |s'.frames| == |s.frames| && |s'.holders| == |s.holders|
    && (forall f :: 0 <= f < |s.frames| ==> FrameLeft(s'.frames[f].status) <= FrameLeft(s.frames[f].status))
    && (forall h :: 0 <= h < |s.holders| ==> (s'.holders[h].live ==> s.holders[h].live))
  }

  lemma FrameNearer(s: State, s': State, f: nat)
    requires Nearer(s, s') && f < |s.frames| && FrameLeft(s'.frames[f].status) < FrameLeft(s.frames[f].status)
    ensures Left(s') < Left(s)
  {
    SumBelow(FramesLeft(s'.frames), FramesLeft(s.frames), f);
    SumAtMost(HoldersLeft(s'.holders), HoldersLeft(s.holders));
  }

  lemma HolderNearer(s: State, s': State, h: nat)
    requires Nearer(s, s') && h < |s.holders| && s.holders[h].live && !s'.holders[h].live
    ensures Left(s') < Left(s)
  {
    SumAtMost(FramesLeft(s'.frames), FramesLeft(s.frames));
    SumBelow(HoldersLeft(s'.holders), HoldersLeft(s.holders), h);
  }

  // ----- the next step -----

  lemma DropNearer(s: State, h: nat)
    requires Inv(s) && h < |s.holders| && s.holders[h].live
    ensures Nearer(s, DropHolder(s, h)) && !DropHolder(s, h).holders[h].live
  {
    assert HolderOk(s, h);
    if s.holders[h].handle.Some? {
      assert OwnerOk(s, s.holders[h].handle.value);
    }
  }

  lemma DyingGoesOn(s: State, f: nat) returns (step: Step)
    requires Inv(s) && Is(s, f, Dying)
    ensures Enabled(s, step) && Left(Apply(s, step)) < Left(s)
  {
    if h :| 0 <= h < |s.holders| && s.holders[h].live && s.holders[h].home == InFrame(f) {
      step := Drop(h);
      DropNearer(s, h);
      HolderNearer(s, Apply(s, step), h);
    } else {
      step := FrameGone(f);
      FrameNearer(s, Apply(s, step), f);
    }
  }

  lemma ResumedGoesOn(s: State, f: nat)
    requires Inv(s) && f < |s.frames| && s.frames[f].status.Resumed?
    ensures Left(Apply(s, AwaitResume(f))) < Left(s)
  {
    var a, g := ResumedChild(s, f);
    FrameNearer(s, Apply(s, AwaitResume(f)), f);
  }

  const PLAIN := Result(Some(0), None)

  lemma RunningGoesOn(s: State, f: nat)
    requires Inv(s) && Is(s, f, Running)
    ensures Enabled(s, Finish(f, PLAIN)) && Left(Apply(s, Finish(f, PLAIN))) < Left(s)
  {
    FrameNearer(s, Apply(s, Finish(f, PLAIN)), f);
  }

  lemma TipGoesOn(s: State, t: nat) returns (step: Step)
    requires Inv(s) && t < |s.frames| && Active(s.frames[t].status) && !s.frames[t].status.Awaiting?
    ensures Enabled(s, step) && Left(Apply(s, step)) < Left(s)
  {
    match s.frames[t].status
    case Queued =>
      step := Resume(t);
      FrameNearer(s, Apply(s, step), t);
    case Running =>
      step := Finish(t, PLAIN);
      RunningGoesOn(s, t);
    case AtLeaf(_) =>
      step := LeafDone(t);
      FrameNearer(s, Apply(s, step), t);
    case Resumed(_) =>
      step := AwaitResume(t);
      ResumedGoesOn(s, t);
  }

  /** Never started, or gone. */
  predicate AtRest(status: Status) {
    status.Initial? || status.Destroyed?
  }

  lemma FrameGoesOn(s: State, f: nat) returns (step: Step)
    requires Inv(s) && f < |s.frames| && !AtRest(s.frames[f].status)
    ensures Enabled(s, step) && Left(Apply(s, step)) < Left(s)
  {
    assert OwnerOk(s, f) && FrameOk(s, f);
    if s.frames[f].status.Dying? {
      step := DyingGoesOn(s, f);
    } else if s.frames[f].status.Final? {
      var h := s.frames[f].owner.h;
      assert HolderOk(s, h);
      step := AwaitResume(s.holders[h].home.f);
      ResumedGoesOn(s, s.holders[h].home.f);
    } else {
      step := TipGoesOn(s, Tip(s, f));
    }
  }

  lemma Before(s: State, step: Step, rest: seq<Step>) returns (steps: seq<Step>)
    requires Enabled(s, step) && Legal(Apply(s, step), rest)
    ensures Legal(s, steps) && Exec(s, steps) == Exec(Apply(s, step), rest)
  {
    steps := [step] + rest;
    assert steps[1..] == rest;
  }

  lemma {:induction false} EndFrom(s: State) returns (more: seq<Step>)
    requires Inv(s)
    ensures Legal(s, more)
    ensures forall f :: 0 <= f < |Exec(s, more).frames| ==> AtRest(Exec(s, more).frames[f].status)
    decreases Left(s)
  {
    if f :| 0 <= f < |s.frames| && !AtRest(s.frames[f].status) {
      var step := FrameGoesOn(s, f);
      LeftNonNegative(s);
      LeftNonNegative(Apply(s, step));
      InvStep(s, step);
      more := EndFrom(Apply(s, step));
      more := Before(s, step, more);
    } else {
      more := [];
    }
  }

  /** Whatever the tasks have done, there is a run on which every frame that was ever started
      comes to its end and is destroyed, and every root sends its outcome. */
  lemma StartedFramesEnd(steps: seq<Step>) returns (more: seq<Step>)
    requires Legal(START, steps)
    ensures Legal(Exec(START, steps), more)
    ensures var e := Exec(Exec(START, steps), more);
      forall f :: 0 <= f < |e.frames| && e.frames[f].started.Some? ==>
        e.frames[f].status.Destroyed? && e.frames[f].destroyed == 1 && (e.frames[f].detached ==> e.frames[f].sent.Some?)
  {
    Reached(steps);
    more := EndFrom(Exec(START, steps));
    InvRun(Exec(START, steps), more);
    var e := Exec(Exec(START, steps), more);
    forall f | 0 <= f < |e.frames| && e.frames[f].started.Some?
      ensures e.frames[f].status.Destroyed? && e.frames[f].destroyed == 1 && (e.frames[f].detached ==> e.frames[f].sent.Some?)
    {
      assert FrameOk(e, f);
    }
  }

  // ----- what an operation brings -----

  /** What co_await makes of a result. */
  ghost predicate Gives(r: Result, what: Delivered) {
    match r.exception
    case Some(e) => what == Throw(e)
    case None => what == Value(r.value)
  }

  /** Frame f called g and waits for it, with awaiter a. */
  ghost predicate AwaitsChild(s: State, f: nat, g: nat, a: nat) {
    && f < |s.frames| && g < |s.frames| && a < |s.holders| && f != g
    && s.frames[f].status == Awaiting(a) && Is(s, g, Running) && s.frames[g].continuation == Some(f)
    && s.frames[g].scope == s.frames[f].scope && !s.frames[g].detached
    && s.holders[a] == Holder(Awaiter, InFrame(f), Some(g), true)
  }

  lemma CallsChild(e: State, f: nat) returns (begun: seq<Step>)
    requires Is(e, f, Running)
    ensures Legal(e, begun)
    ensures var s := Exec(e, begun);
      AwaitsChild(s, f, |e.frames|, |e.holders| + 1) && s.log == e.log && s.frames[f].scope == e.frames[f].scope
  {
    var s1 := Apply(e, Call(InFrame(f)));
    var step := AwaitTask(f, |e.holders|);
    begun := Before(s1, step, []);
    begun := Before(e, Call(InFrame(f)), begun);
  }

  lemma ChildFinishes(s: State, f: nat, g: nat, a: nat, r: Result) returns (more: seq<Step>)
    requires AwaitsChild(s, f, g, a) && (r.value.Some? || r.exception.Some?)
    ensures Legal(s, more)
    ensures var e := Exec(s, more);
      && Is(e, f, Running) && |e.log| == |s.log| + 1 && e.log[..|s.log|] == s.log
      && e.log[|s.log|].parent == f && e.log[|s.log|].child == g && Gives(r, e.log[|s.log|].what)
      && Is(e, g, Dying) && a < |e.holders| && !e.holders[a].live
  {
    var s1 := Apply(s, Finish(g, r));
    assert s1.frames[f].status == Resumed(a);
    more := Before(s1, AwaitResume(f), []);
    more := Before(s, Finish(g, r), more);
  }

  /** In every reachable state a running frame, at any depth, can call a task and await it:
      the child runs with its scope, and however it ends, the frame gets that. */
  lemma AwaitWorks(steps: seq<Step>, f: nat, r: Result) returns (begun: seq<Step>, more: seq<Step>)
    requires Legal(START, steps) && Is(Exec(START, steps), f, Running) && (r.value.Some? || r.exception.Some?)
    ensures Legal(Exec(START, steps), begun) && Legal(Exec(Exec(START, steps), begun), more)
    ensures var e := Exec(START, steps); var s := Exec(e, begun); var g := |e.frames|;
      && AwaitsChild(s, f, g, |e.holders| + 1) && s.frames[g].scope == e.frames[f].scope
      && var d := Exec(s, more);
         && Is(d, f, Running) && Is(d, g, Dying) && |d.log| == |e.log| + 1 && d.log[..|e.log|] == e.log
         && d.log[|e.log|].parent == f && d.log[|e.log|].child == g && Gives(r, d.log[|e.log|].what)
  {
    var e := Exec(START, steps);
    begun := CallsChild(e, f);
    more := ChildFinishes(Exec(e, begun), f, |e.frames|, |e.holders| + 1, r);
  }

  /** A task spawned from an object that holds one becomes a root of its own, queued, and the
      object is empty; and a running frame that goes to a leaf gives it its scope. */
  lemma SpawnMakesRoot(steps: seq<Step>, h: nat)
    requires Legal(START, steps) && Enabled(Exec(START, steps), Spawn(h))
    requires Exec(START, steps).holders[h].handle.Some?
    ensures var e := Exec(START, steps); var f := e.holders[h].handle.value; var s := Apply(e, Spawn(h));
      && f < |s.frames| && Is(s, f, Queued) && s.frames[f].detached && s.frames[f].scope == Some(f)
      && s.frames[f].started.Some? && s.holders[h].handle == None
  {
    Reached(steps);
    assert HolderOk(Exec(START, steps), h);
  }

  lemma LeafGetsScope(steps: seq<Step>, f: nat)
    requires Legal(START, steps) && Is(Exec(START, steps), f, Running)
    ensures var e := Exec(START, steps); var s := Apply(e, AwaitLeaf(f));
      && s.frames[f].status == AtLeaf(e.frames[f].scope) && Enabled(s, LeafDone(f))
      && Enabled(Apply(s, LeafDone(f)), Resume(f)) && Apply(Apply(s, LeafDone(f)), Resume(f)) == e
  {
  }

  /** A move hands the frame over and empties the source. */
  lemma MoveHandsOver(steps: seq<Step>, h: nat, home: Home)
    requires Legal(START, steps) && Enabled(Exec(START, steps), MoveConstruct(h, home))
    ensures var e := Exec(START, steps); var s := Apply(e, MoveConstruct(h, home));
      && |s.holders| == |e.holders| + 1 && s.holders[|e.holders|] == Holder(TaskObject, home, e.holders[h].handle, true)
      && s.holders[h] == e.holders[h].(handle := None)
  {
  }

  /** So does an assignment, and what its target held is destroyed; of an object to itself it
      changes nothing. */
  lemma AssignmentDestroys(steps: seq<Step>, dst: nat, src: nat)
    requires Legal(START, steps) && Enabled(Exec(START, steps), MoveAssign(dst, src))
    ensures var e := Exec(START, steps); var s := Apply(e, MoveAssign(dst, src)); var was := e.holders[dst].handle;
      if dst == src then s == e
      else
        && |s.holders| == |e.holders| && s.holders[dst].handle == e.holders[src].handle && s.holders[src].handle == None
        && (was.Some? ==> Is(s, was.value, Dying))
  {
    Reached(steps);
    assert HolderOk(Exec(START, steps), dst) && HolderOk(Exec(START, steps), src);
  }

  /** And so is what an object holds whose scope ends. */
  lemma DropDestroys(steps: seq<Step>, h: nat)
    requires Legal(START, steps) && Enabled(Exec(START, steps), Drop(h))
    ensures var e := Exec(START, steps); var s := Apply(e, Drop(h)); var was := e.holders[h].handle;
      |s.holders| == |e.holders| && !s.holders[h].live && (was.Some? ==> Is(s, was.value, Dying))
  {
    Reached(steps);
    assert HolderOk(Exec(START, steps), h);
  }
}
