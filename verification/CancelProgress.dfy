/** What the calls on a cancel scope do when they are left to run, and that they end. */
module CancelProgress {
  import opened CancelProtocol
  import opened GuardStates
  import opened Options
  import opened Queues
  import opened Sums

  lemma Before(s: State, step: Step, rest: seq<Step>) returns (steps: seq<Step>)
    requires Enabled(s, step) && Legal(Apply(s, step), rest)
    ensures Legal(s, steps) && Exec(s, steps) == Exec(Apply(s, step), rest)
  {
    steps := [step] + rest;
    assert steps[1..] == rest;
  }

  // ----- a call that is left to run -----

  /** The state in which a new call of thread t finds the mutex free. */
  predicate Ready(s: State, t: nat) {
    t < |s.threads| && s.threads[t].Outside? && s.lock == None
  }

  /** A call of two accesses, the second of which gives the mutex back. */
  lemma TwoAccesses(s: State, step: Step, t: nat) returns (more: seq<Step>)
    requires Enabled(s, step) && Enabled(Apply(s, step), Advance(t))
    requires Enabled(Apply(Apply(s, step), Advance(t)), Advance(t))
    ensures Legal(s, more) && Exec(s, more) == Apply(Apply(Apply(s, step), Advance(t)), Advance(t))
  {
    var s1 := Apply(s, step);
    more := Before(Apply(s1, Advance(t)), Advance(t), []);
    more := Before(s1, Advance(t), more);
    more := Before(s, step, more);
  }

  /** The call is over, and of the guards it changed at most g. */
  ghost predicate Over(e: State, f: State, g: nat) {
    && f.threads == e.threads && f.lock == None && f.cancelled == e.cancelled && f.ran == e.ran
    && |f.guards| == |e.guards| && (forall i :: 0 <= i < |e.guards| && i != g ==> f.guards[i] == e.guards[i])
  }

  ghost predicate Armed1(e: State, f: State, g: nat)
    requires g < |e.guards| && |f.guards| == |e.guards|
  {
    if e.cancelled then f.list == e.list && f.guards[g] == e.guards[g]
    else f.list == [g] + e.list && f.guards[g].state == Armed && f.guards[g].arms == e.guards[g].arms + 1
  }

  lemma ArmNow(e: State, t: nat, g: nat) returns (more: seq<Step>)
    requires Ready(e, t) && g < |e.guards| && e.guards[g].state == Idle
    ensures Legal(e, more) && Over(e, Exec(e, more), g) && Armed1(e, Exec(e, more), g)
  {
    more := TwoAccesses(e, StartArm(t, g), t);
  }

  /** arm on a scope that is not cancelled links the guard, in front of all others; on a
      cancelled one it changes nothing. */
  lemma ArmAlone(s: State, steps: seq<Step>, t: nat, g: nat) returns (more: seq<Step>)
    requires Init(s) && Legal(s, steps) && Ready(Exec(s, steps), t)
    requires var e := Exec(s, steps); g < |e.guards| && e.guards[g].state == Idle
    ensures var e := Exec(s, steps); Legal(e, more) && Over(e, Exec(e, more), g) && Armed1(e, Exec(e, more), g)
  {
    more := ArmNow(Exec(s, steps), t, g);
  }

  ghost predicate Disarmed1(e: State, f: State, g: nat)
    requires g < |e.guards| && |f.guards| == |e.guards|
  {
    && (forall i :: i in f.list <==> i in e.list && i != g)
    && var x, y := e.guards[g], f.guards[g];
       if g in e.list then y.state == Disarmed && y.disarms == x.disarms + 1 && y.misses == x.misses
       else y.state == x.state && y.disarms == x.disarms && y.misses == x.misses + if x.arms > 0 then 1 else 0
  }

  lemma DisarmNow(e: State, t: nat, g: nat) returns (more: seq<Step>)
    requires Ready(e, t) && g < |e.guards| && (e.guards[g].state == Armed <==> g in e.list)
    requires forall i :: i in Removed(e.list, g) <==> i in e.list && i != g
    ensures Legal(e, more) && Over(e, Exec(e, more), g) && Disarmed1(e, Exec(e, more), g)
  {
    more := TwoAccesses(e, StartDisarm(t, g), t);
  }

  lemma TakesOut(q: seq<nat>, g: nat)
    requires Distinct(q)
    ensures forall i :: i in Removed(q, g) <==> i in q && i != g
  {
    if g in q {
      WithoutMembers(q, IndexOf(q, g));
    }
  }

  /** disarm takes an armed guard, one in the list, out of it, and leaves any other as it is. */
  lemma DisarmAlone(s: State, steps: seq<Step>, t: nat, g: nat) returns (more: seq<Step>)
    requires Init(s) && Legal(s, steps) && Ready(Exec(s, steps), t) && g < |Exec(s, steps).guards|
    ensures var e := Exec(s, steps);
      Legal(e, more) && Over(e, Exec(e, more), g) && Disarmed1(e, Exec(e, more), g)
  {
    InvRun(s, steps);
    var e := Exec(s, steps);
    NewestDistinct(e.guards, e.list);
    TakesOut(e.list, g);
    more := DisarmNow(e, t, g);
  }

  /** The guards of q have fired, and their callbacks are over; no other guard has changed. */
  ghost predicate FiredOnce(guards: seq<Guard>, guards': seq<Guard>, q: seq<nat>) {
    && |guards'| == |guards|
    && forall g :: 0 <= g < |guards| ==>
         if g in q then
           guards'[g].state == Fired && guards'[g].started == guards'[g].finished == 1 && guards'[g].disarms == 0
         else guards'[g] == guards[g]
  }

  /** The winning cancel, from one guard to the next. */
  function Popped(s: State, t: nat): State
    requires Enabled(s, Advance(t))
  {
    var s1 := Apply(s, Advance(t));
    if Enabled(s1, Advance(t)) then Apply(s1, Advance(t)) else s1
  }

  predicate Firing(s: State, t: nat) {
    t < |s.threads| && s.threads[t].Popping? && s.lock == Some(t)
  }

  /** Each guard in the list is armed, and has no other fate yet. */
  ghost predicate AllArmed(s: State) {
    Distinct(s.list) && forall i :: 0 <= i < |s.list| ==> s.list[i] < |s.guards| && Fresh(s.guards[s.list[i]])
  }

  predicate Fresh(x: Guard) {
    x.state == Armed && x.disarms == 0 && x.started == 0 && x.finished == 0
  }

  lemma PopsFirst(s: State, t: nat)
    requires Firing(s, t) && s.list != [] && AllArmed(s)
    ensures var s1 := Apply(s, Advance(t)); Enabled(s1, Advance(t)) && Popped(s, t) == Apply(s1, Advance(t))
    ensures var s' := Popped(s, t);
      && Firing(s', t) && s'.threads == s.threads && s'.list == s.list[1..] && s'.ran == s.ran + [s.list[0]]
      && s'.cancelled == s.cancelled && FiredOnce(s.guards, s'.guards, [s.list[0]])
  {
    assert Removed(s.list, s.list[0]) == s.list[1..];
  }

  lemma StillArmed(s: State, s': State)
    requires s.list != [] && AllArmed(s) && s'.list == s.list[1..] && FiredOnce(s.guards, s'.guards, [s.list[0]])
    ensures AllArmed(s')
  {
    forall i | 0 <= i < |s'.list|
      ensures s'.list[i] < |s'.guards| && Fresh(s'.guards[s'.list[i]])
    {
      assert s'.list[i] == s.list[i + 1] != s.list[0];
    }
  }

  lemma FiredAll(a: seq<Guard>, b: seq<Guard>, c: seq<Guard>, q: seq<nat>)
    requires q != [] && Distinct(q) && FiredOnce(a, b, [q[0]]) && FiredOnce(b, c, q[1..])
    ensures FiredOnce(a, c, q)
  {
    assert forall g: nat :: g in q <==> g == q[0] || g in q[1..];
  }

  /** The scope as a cancel leaves it that found list q and callbacks ran run before. */
  ghost predicate Fired1(f: State, ran: seq<nat>, q: seq<nat>) {
    f.lock == None && f.list == [] && f.ran == ran + q
  }

  lemma {:induction false} PopsAll(s: State, t: nat) returns (more: seq<Step>)
    requires Firing(s, t) && AllArmed(s)
    ensures Legal(s, more)
    ensures var f := Exec(s, more);
      && f.threads == s.threads[t := Outside] && f.cancelled == s.cancelled && f.returned && Fired1(f, s.ran, s.list)
      && FiredOnce(s.guards, f.guards, s.list)
    decreases |s.list|
  {
    if s.list == [] {
      more := PopsNone(s, t);
    } else {
      PopsFirst(s, t);
      var s' := Popped(s, t);
      StillArmed(s, s');
      var rest := PopsAll(s', t);
      var f := Exec(s', rest);
      more := PopsOneMore(s, t, rest);
      FiredAll(s.guards, s'.guards, f.guards, s.list);
      Regroup(s.ran, s.list);
    }
  }

  lemma Regroup(ran: seq<nat>, q: seq<nat>)
    requires q != []
    ensures ran + [q[0]] + q[1..] == ran + q
  {
  }

  lemma PopsNone(s: State, t: nat) returns (more: seq<Step>)
    requires Firing(s, t) && s.list == []
    ensures Legal(s, more)
    ensures var f := Exec(s, more);
      && f.threads == s.threads[t := Outside] && f.cancelled == s.cancelled && f.returned && Fired1(f, s.ran, [])
      && f.guards == s.guards
  {
    var s1 := Apply(s, Advance(t));
    more := Before(s1, Advance(t), []);
    more := Before(s, Advance(t), more);
  }

  lemma PopsOneMore(s: State, t: nat, rest: seq<Step>) returns (more: seq<Step>)
    requires Enabled(s, Advance(t)) && Enabled(Apply(s, Advance(t)), Advance(t)) && Legal(Popped(s, t), rest)
    ensures Legal(s, more) && Exec(s, more) == Exec(Popped(s, t), rest)
  {
    more := Before(Apply(s, Advance(t)), Advance(t), rest);
    more := Before(s, Advance(t), more);
  }

  /** cancel up to its loop. */
  lemma CancelStarts(e: State, t: nat, rest: seq<Step>) returns (more: seq<Step>)
    requires Ready(e, t) && !e.cancelled
    requires Legal(Started(e, t), rest)
    ensures Legal(e, more) && Exec(e, more) == Exec(Started(e, t), rest)
  {
    var e1 := Apply(e, StartCancel(t));
    var e2 := Apply(e1, Advance(t));
    assert Apply(e2, Advance(t)) == Started(e, t);
    more := Before(e2, Advance(t), rest);
    more := Before(e1, Advance(t), more);
    more := Before(e, StartCancel(t), more);
  }

  function Started(e: State, t: nat): State
    requires t < |e.threads|
  {
    e.(lock := Some(t), cancelled := true, snapshot := e.list, threads := e.threads[t := Popping])
  }

  lemma ArmedNow(e: State)
    requires Inv(e)
    ensures AllArmed(e) && (!e.cancelled ==> e.ran == [])
    ensures forall g :: 0 <= g < |e.guards| ==> (g in e.list <==> e.guards[g].state == Armed)
  {
    NewestDistinct(e.guards, e.list);
    forall i | 0 <= i < |e.list|
      ensures e.list[i] < |e.guards| && Fresh(e.guards[e.list[i]])
    {
      assert e.list[i] in e.list;
      assert Fate(e.guards[e.list[i]]);
    }
  }

  ghost predicate Cancelled1(e: State, f: State) {
    && f.threads == e.threads && f.cancelled
    && if e.cancelled then f == e else f.returned && Fired1(f, [], e.list) && FiredOnce(e.guards, f.guards, e.list)
  }

  lemma CancelNow(e: State, t: nat) returns (more: seq<Step>)
    requires Ready(e, t) && AllArmed(e) && (!e.cancelled ==> e.ran == [])
    ensures Legal(e, more) && Cancelled1(e, Exec(e, more))
  {
    if e.cancelled {
      more := Before(e, StartCancel(t), []);
    } else {
      more := PopsAll(Started(e, t), t);
      more := CancelStarts(e, t, more);
    }
  }

  /** cancel leaves the scope cancelled and its list empty, with the callback of each guard
      that was armed run to its end, in the order of the list; a second one changes
      nothing. */
  lemma CancelAlone(s: State, steps: seq<Step>, t: nat) returns (more: seq<Step>)
    requires Init(s) && Legal(s, steps) && Ready(Exec(s, steps), t)
    ensures var e := Exec(s, steps);
      && Legal(e, more) && Cancelled1(e, Exec(e, more))
      && (forall g :: 0 <= g < |e.guards| ==> (g in e.list <==> e.guards[g].state == Armed))
  {
    InvRun(s, steps);
    var e := Exec(s, steps);
    ArmedNow(e);
    more := CancelNow(e, t);
  }

  /** A run from the start: a guard is armed, and the scope cancelled. */
  lemma GuardFires() returns (s: State, steps: seq<Step>)
    ensures Init(s) && Legal(s, steps)
    ensures var e := Exec(s, steps); e.cancelled && e.ran == [0] && |e.guards| == 1 && e.guards[0].state == Fired
  {
    s := State(false, None, [], [], [], [], [], false, 0);
    var s1 := Apply(s, NewThread);
    var s2 := Apply(s1, NewGuard);
    var arm := ArmNow(s2, 0, 0);
    var e := Exec(s2, arm);
    ArmedFirst(s, arm);
    steps := CancelNow(e, 0);
    steps := After(s2, arm, steps);
    steps := Before(s1, NewGuard, steps);
    steps := Before(s, NewThread, steps);
  }

  lemma ArmedFirst(s: State, arm: seq<Step>)
    requires Init(s)
    requires var s2 := Apply(Apply(s, NewThread), NewGuard); Legal(s2, arm) && !Exec(s2, arm).cancelled
    ensures var e := Exec(Apply(Apply(s, NewThread), NewGuard), arm); AllArmed(e) && e.ran == []
  {
    InvStep(s, NewThread);
    InvStep(Apply(s, NewThread), NewGuard);
    InvRun(Apply(Apply(s, NewThread), NewGuard), arm);
    ArmedNow(Exec(Apply(Apply(s, NewThread), NewGuard), arm));
  }

  lemma {:induction false} After(s: State, steps: seq<Step>, more: seq<Step>) returns (both: seq<Step>)
    requires Legal(s, steps) && Legal(Exec(s, steps), more)
    ensures Legal(s, both) && Exec(s, both) == Exec(Exec(s, steps), more)
    decreases |steps|
  {
    if steps == [] {
      both := more;
    } else {
      both := After(Apply(s, steps[0]), steps[1..], more);
      both := Before(s, steps[0], both);
    }
  }

  // ----- every call ends -----

  function PcLeft(pc: Pc): nat {
    match pc
    case Outside => 0
    case CancelEntry => 4
    case CancelSwap => 3
    case Popping => 2
    case Calling(_) => 3
    case Arming(_) => 4
    case Disarming(_) => 2
    case Unlocking(_) => 1
  }

  function ThreadsLeft(threads: seq<Pc>): seq<int> {
    seq(|threads|, t requires 0 <= t < |threads| => PcLeft(threads[t]))
  }

  /** A bound on the accesses still to come in the calls that have begun. */
  function Left(s: State): int {
    Sum(ThreadsLeft(s.threads)) + 2 * |s.list|
  }

  function Accesses(steps: seq<Step>): nat {
    if steps == [] then 0 else (if steps[0].Advance? then 1 else 0) + Accesses(steps[1..])
  }

  function Calls(steps: seq<Step>): nat {
    if steps == [] then 0
    else (if steps[0].StartCancel? || steps[0].StartArm? || steps[0].StartDisarm? then 1 else 0) + Calls(steps[1..])
  }

  lemma ThreadSum(threads: seq<Pc>, t: nat, pc: Pc)
    requires t < |threads|
    ensures Sum(ThreadsLeft(threads[t := pc])) == Sum(ThreadsLeft(threads)) - PcLeft(threads[t]) + PcLeft(pc)
  {
    assert ThreadsLeft(threads[t := pc]) == ThreadsLeft(threads)[t := PcLeft(pc)];
    SumUpdate(ThreadsLeft(threads), t, PcLeft(pc));
  }

  lemma PcShrinks(s: State, t: nat)
    requires Enabled(s, Advance(t))
    ensures var s' := AdvanceApply(s, t);
      && |s'.threads| == |s.threads| && s'.threads == s.threads[t := s'.threads[t]]
      && PcLeft(s'.threads[t]) + 2 * |s'.list| < PcLeft(s.threads[t]) + 2 * |s.list|
  {
    match s.threads[t]
    case Popping =>
    case Arming(_) =>
    case Disarming(_) =>
    case _ =>
  }

  lemma AccessShrinks(s: State, t: nat)
    requires Enabled(s, Advance(t))
    ensures Left(AdvanceApply(s, t)) < Left(s)
  {
    PcShrinks(s, t);
    ThreadSum(s.threads, t, AdvanceApply(s, t).threads[t]);
  }

  lemma LeftGrows(s: State, step: Step)
    requires Enabled(s, step) && !step.Advance?
    ensures Left(Apply(s, step)) <= Left(s) + 4 * Calls([step])
  {
    var s' := Apply(s, step);
    match step
    case NewThread =>
      assert ThreadsLeft(s'.threads) == ThreadsLeft(s.threads) + [0];
      SumAppend(ThreadsLeft(s.threads), 0);
    case NewGuard =>
    case StartCancel(t) => ThreadSum(s.threads, t, s'.threads[t]);
    case StartArm(t, _) => ThreadSum(s.threads, t, s'.threads[t]);
    case StartDisarm(t, _) => ThreadSum(s.threads, t, s'.threads[t]);
  }

  lemma {:induction false} AccessesBounded(s: State, steps: seq<Step>)
    requires Legal(s, steps)
    ensures Accesses(steps) + Left(Exec(s, steps)) <= Left(s) + 4 * Calls(steps)
    decreases |steps|
  {
    if steps == [] {
    } else {
      if steps[0].Advance? {
        AccessShrinks(s, steps[0].t);
      } else {
        LeftGrows(s, steps[0]);
      }
      AccessesBounded(Apply(s, steps[0]), steps[1..]);
    }
  }

  lemma SomeoneGoesOn(e: State, t: nat)
    requires Inv(e) && t < |e.threads| && !e.threads[t].Outside?
    ensures Enabled(e, Advance(if e.lock == None then t else e.lock.value))
  {
    assert Holds(e.threads[t]) <==> e.lock == Some(t);
  }

  /** No run makes more than four accesses for each call, callbacks included. */
  lemma CallsEnd(s: State, steps: seq<Step>)
    requires Init(s) && Legal(s, steps)
    ensures Accesses(steps) <= 4 * Calls(steps)
  {
    AccessesBounded(s, steps);
    SumNonNegative(ThreadsLeft(Exec(s, steps).threads));
  }

  /** And as long as a call of thread t has not returned, some thread can make one. */
  lemma NobodyIsStuck(s: State, steps: seq<Step>, t: nat)
    requires Init(s) && Legal(s, steps) && t < |Exec(s, steps).threads| && !Exec(s, steps).threads[t].Outside?
    ensures exists u: nat :: Enabled(Exec(s, steps), Advance(u))
  {
    InvRun(s, steps);
    SomeoneGoesOn(Exec(s, steps), t);
  }
}
