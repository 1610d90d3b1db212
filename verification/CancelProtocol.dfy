/** One cancel scope as a transition system: any number of threads cancel it and arm and
    disarm guards on it. A step is one atomic access, one critical section, or the start
    or end of one callback; callbacks run while the cancelling thread holds the mutex. */
module CancelProtocol {
  import opened GuardStates
  import opened Options
  import opened Queues

  /** One guard, with a record of what happened to it: successful arms, disarms that
      returned true, disarms that returned false after an arm, callback starts and ends. */
  datatype Guard = Guard(
    state: GuardState,
    ticket: nat,
    arms: nat,
    disarms: nat,
    misses: nat,
    started: nat,
    finished: nat)

  datatype Pc =
    | Outside
    | CancelEntry
    | CancelSwap
    | Popping
    | Calling(g: nat)
    | Arming(g: nat)
    | Disarming(g: nat)
    | Unlocking(won: bool)

  /** snapshot is the list when the winning cancel swapped the flag; returned says that
      this cancel has given the mutex back. */
  datatype State = State(
    cancelled: bool,
    lock: Option<nat>,
    list: seq<nat>,
    guards: seq<Guard>,
    threads: seq<Pc>,
    ran: seq<nat>,
    snapshot: seq<nat>,
    returned: bool,
    tickets: nat)

  datatype Step =
    | NewThread
    | NewGuard
    | StartCancel(t: nat)
    | StartArm(t: nat, g: nat)
    | StartDisarm(t: nat, g: nat)
    | Advance(t: nat)

  predicate Holds(pc: Pc) {
    !pc.Outside? && !pc.CancelEntry?
  }

  function SetPc(s: State, t: nat, pc: Pc): State
    requires t < |s.threads|
  {
    s.(threads := s.threads[t := pc])
  }

  function At(s: State, g: nat): Guard {
    if g < |s.guards| then s.guards[g] else Guard(Idle, 0, 0, 0, 0, 0, 0)
  }

  function SetGuard(s: State, g: nat, x: Guard): State {
    if g < |s.guards| then s.(guards := s.guards[g := x]) else s
  }

  function ArmApply(s: State, t: nat, g: nat): State
    requires t < |s.threads|
  {
    var x := At(s, g);
    var s1 := SetPc(s, t, Unlocking(false));
    if s.cancelled then s1
    else SetGuard(s1.(list := [g] + s.list, tickets := s.tickets + 1), g,
                  x.(state := Armed, arms := x.arms + 1, ticket := s.tickets))
  }

  function DisarmApply(s: State, t: nat, g: nat): State
    requires t < |s.threads|
  {
    var x := At(s, g);
    var s1 := SetPc(s, t, Unlocking(false));
    if x.state != Armed then SetGuard(s1, g, if x.arms > 0 then x.(misses := x.misses + 1) else x)
    else SetGuard(s1.(list := Removed(s.list, g)), g, x.(state := Disarmed, disarms := x.disarms + 1))
  }

  function PopApply(s: State, t: nat): State
    requires t < |s.threads|
  {
    if s.list == [] then SetPc(s, t, Unlocking(true))
    else
      var g := s.list[0];
      var x := At(s, g);
      SetGuard(SetPc(s.(list := Removed(s.list, g)), t, Calling(g)), g,
               x.(state := Fired, started := x.started + 1))
  }

  function ReturnApply(s: State, t: nat, g: nat): State
    requires t < |s.threads|
  {
    var x := At(s, g);
    SetGuard(SetPc(s.(ran := s.ran + [g]), t, Popping), g, x.(finished := x.finished + 1))
  }

  function AdvanceApply(s: State, t: nat): State
    requires t < |s.threads|
  {
    match s.threads[t]
    case Outside => s
    case CancelEntry => SetPc(s.(lock := Some(t)), t, CancelSwap)
    case CancelSwap =>
      if s.cancelled then SetPc(s, t, Unlocking(false))
      else SetPc(s.(cancelled := true, snapshot := s.list), t, Popping)
    case Popping => PopApply(s, t)
    case Calling(g) => ReturnApply(s, t, g)
    case Arming(g) => ArmApply(s, t, g)
    case Disarming(g) => DisarmApply(s, t, g)
    case Unlocking(won) => SetPc(s.(lock := None, returned := s.returned || won), t, Outside)
  }

  /** Arm is called on an idle guard, as the source asserts. */
  predicate Enabled(s: State, step: Step) {
    match step
    case NewThread => true
    case NewGuard => true
    case StartCancel(t) => t < |s.threads| && s.threads[t].Outside?
    case StartArm(t, g) =>
      t < |s.threads| && s.threads[t].Outside? && s.lock == None && g < |s.guards| && s.guards[g].state == Idle
    case StartDisarm(t, g) => t < |s.threads| && s.threads[t].Outside? && s.lock == None && g < |s.guards|
    case Advance(t) =>
      t < |s.threads| && !s.threads[t].Outside? && (s.threads[t].CancelEntry? ==> s.lock == None)
  }

  function Apply(s: State, step: Step): State
    requires Enabled(s, step)
  {
    match step
    case NewThread => s.(threads := s.threads + [Outside])
    case NewGuard => s.(guards := s.guards + [Guard(Idle, 0, 0, 0, 0, 0, 0)])
    case StartCancel(t) => SetPc(s, t, if s.cancelled then Outside else CancelEntry)
    case StartArm(t, g) => SetPc(s.(lock := Some(t)), t, Arming(g))
    case StartDisarm(t, g) => SetPc(s.(lock := Some(t)), t, Disarming(g))
    case Advance(t) => AdvanceApply(s, t)
  }

  predicate Init(s: State) {
    s == State(false, None, [], [], [], [], [], false, 0)
  }

  ghost predicate Legal(s: State, steps: seq<Step>)
    decreases |steps|
  {
    steps == [] || (Enabled(s, steps[0]) && Legal(Apply(s, steps[0]), steps[1..]))
  }

  ghost function Exec(s: State, steps: seq<Step>): State
    requires Legal(s, steps)
    decreases |steps|
  {
    if steps == [] then s else Exec(Apply(s, steps[0]), steps[1..])
  }

  // ----- the invariant -----

  ghost predicate LockOwned(s: State) {
    && (s.lock.Some? ==> s.lock.value < |s.threads|)
    && forall t :: 0 <= t < |s.threads| ==> (Holds(s.threads[t]) <==> s.lock == Some(t))
  }

  /** The thread inside the mutex, or none. */
  function Holder(s: State): Pc {
    if s.lock.Some? && s.lock.value < |s.threads| then s.threads[s.lock.value] else Outside
  }

  /** Each armed guard has exactly one of three fates. */
  ghost predicate Fate(x: Guard) {
    match x.state
    case Idle => x.arms == x.disarms == x.misses == x.started == x.finished == 0
    case Armed => x.arms == 1 && x.disarms == x.misses == x.started == x.finished == 0
    case Disarmed => x.arms == x.disarms == 1 && x.started == x.finished == 0
    case Fired => x.arms == x.started == 1 && x.disarms == 0 && x.finished <= 1 && (x.misses > 0 ==> x.finished == 1)
  }

  function Ticket(guards: seq<Guard>, g: nat): nat {
    if g < |guards| then guards[g].ticket else 0
  }

  /** The most recently armed guard comes first. */
  ghost predicate NewestFirst(guards: seq<Guard>, q: seq<nat>) {
    forall i, j :: 0 <= i < j < |q| ==> Ticket(guards, q[i]) > Ticket(guards, q[j])
  }

  /** The list holds exactly the armed guards. */
  ghost predicate ListOk(guards: seq<Guard>, list: seq<nat>, tickets: nat) {
    && NewestFirst(guards, list)
    && (forall g :: 0 <= g < |guards| ==> (guards[g].state == Armed <==> g in list))
    && (forall i :: 0 <= i < |list| ==> list[i] < |guards| && guards[list[i]].ticket < tickets)
  }

  ghost predicate GuardsOk(guards: seq<Guard>, holder: Pc) {
    && (forall g :: 0 <= g < |guards| ==> Fate(guards[g]))
    && (forall g :: 0 <= g < |guards| && guards[g].state == Fired ==> (guards[g].finished == 0 <==> holder == Calling(g)))
  }

  ghost predicate HolderOk(s: State, holder: Pc) {
    match holder
    case Popping => s.cancelled && !s.returned
    case Calling(g) => s.cancelled && !s.returned && g < |s.guards| && s.guards[g].state == Fired
    case Arming(g) => g < |s.guards| && s.guards[g].state == Idle
    case Disarming(g) => g < |s.guards|
    case Unlocking(won) => won ==> s.cancelled && !s.returned && s.list == []
    case _ => true
  }

  function Current(pc: Pc): seq<nat> {
    if pc.Calling? then [pc.g] else []
  }

  /** How far the winning cancel has got through the snapshot. */
  ghost predicate Progress(s: State, holder: Pc) {
    && (!s.cancelled ==> s.ran == [] && !s.returned)
    && (s.cancelled ==> s.ran + Current(holder) + s.list == s.snapshot)
    && (s.cancelled && !holder.Popping? && !holder.Calling? ==> s.list == [])
    && (s.returned ==> !holder.Popping? && !holder.Calling?)
  }

  /** Which guards the winning cancel deals with. */
  ghost predicate Chosen(guards: seq<Guard>, cancelled: bool, snapshot: seq<nat>) {
    && (forall g :: 0 <= g < |guards| && guards[g].state == Fired ==> cancelled && g in snapshot)
    && (cancelled ==>
          && NewestFirst(guards, snapshot)
          && forall g :: g in snapshot ==> g < |guards| && (guards[g].state == Armed || guards[g].state == Fired))
  }

  ghost predicate Inv(s: State) {
    && LockOwned(s) && ListOk(s.guards, s.list, s.tickets) && GuardsOk(s.guards, Holder(s))
    && HolderOk(s, Holder(s)) && Progress(s, Holder(s)) && Chosen(s.guards, s.cancelled, s.snapshot)
  }

  // ----- every step keeps it -----

  /** The mutex changes hands, or its holder moves on. */
  lemma PcMoves(s: State, s': State, t: nat, pc: Pc)
    requires LockOwned(s) && t < |s.threads| && (s.lock == None || s.lock == Some(t) || !Holds(pc))
    requires s'.threads == s.threads[t := pc]
    requires s'.lock == if Holds(pc) then Some(t) else if s.lock == Some(t) then None else s.lock
    ensures LockOwned(s')
    ensures Holder(s') == if Holds(pc) then pc else if s.lock == Some(t) then Outside else Holder(s)
    ensures s.lock == Some(t) ==> Holder(s) == s.threads[t]
    ensures s.lock == None ==> Holder(s) == Outside
    ensures Holds(s.threads[t]) ==> s.lock == Some(t)
  {
    assert Holds(s.threads[t]) <==> s.lock == Some(t);
  }

  /** A thread moves outside the callback loop, with everything else as it is. */
  lemma Moves(s: State, s': State, t: nat, pc: Pc)
    requires Inv(s) && t < |s.threads| && (s.lock == None || s.lock == Some(t) || !Holds(pc))
    requires s' == s.(threads := s.threads[t := pc],
                      lock := if Holds(pc) then Some(t) else if s.lock == Some(t) then None else s.lock)
    requires !s.threads[t].Popping? && !s.threads[t].Calling? && !pc.Popping? && !pc.Calling?
    requires HolderOk(s, pc)
    ensures Inv(s')
  {
    PcMoves(s, s', t, pc);
    if Holder(s') == Holder(s) {
    } else {
      OtherHolder(s.guards, Holder(s), Holder(s'));
      assert Current(Holder(s')) == Current(Holder(s));
    }
  }

  /** A holder that is not in a callback is as good as any other. */
  lemma OtherHolder(guards: seq<Guard>, holder: Pc, other: Pc)
    requires GuardsOk(guards, holder) && !holder.Calling? && !other.Calling?
    ensures GuardsOk(guards, other)
  {
  }

  /** Guard g changes its state and its record, keeping its ticket; what the snapshot says
      of it stays true. */
  lemma GuardMoves(guards: seq<Guard>, g: nat, x: Guard, holder: Pc, holder': Pc, cancelled: bool, snapshot: seq<nat>)
    requires GuardsOk(guards, holder) && Chosen(guards, cancelled, snapshot) && g < |guards|
    requires Fate(x) && x.ticket == guards[g].ticket
    requires (x.state == Fired && x.finished == 0) <==> holder' == Calling(g)
    requires forall v: nat :: v != g ==> (holder == Calling(v) <==> holder' == Calling(v))
    requires x.state == Fired ==> cancelled && g in snapshot
    requires cancelled && g in snapshot ==> x.state == Armed || x.state == Fired
    ensures GuardsOk(guards[g := x], holder') && Chosen(guards[g := x], cancelled, snapshot)
  {
    assert forall v: nat :: Ticket(guards[g := x], v) == Ticket(guards, v);
  }

  lemma ArmList(guards: seq<Guard>, list: seq<nat>, tickets: nat, g: nat, x: Guard)
    requires ListOk(guards, list, tickets) && g < |guards| && guards[g].state != Armed
    requires x.state == Armed && x.ticket == tickets
    ensures ListOk(guards[g := x], [g] + list, tickets + 1)
  {
    var guards', q := guards[g := x], [g] + list;
    forall v | 0 <= v < |guards'|
      ensures guards'[v].state == Armed <==> v in q
    {
      assert v in q <==> v == g || v in list;
    }
    assert forall i :: 0 < i < |q| ==> q[i] == list[i - 1] && list[i - 1] in list;
  }

  lemma ArmInv(s: State, t: nat, g: nat)
    requires Inv(s) && t < |s.threads| && s.threads[t] == Arming(g)
    ensures Inv(ArmApply(s, t, g))
  {
    var s' := ArmApply(s, t, g);
    PcMoves(s, s', t, Unlocking(false));
    if s.cancelled {
      Moves(s, s', t, Unlocking(false));
    } else {
      assert Fate(s.guards[g]);
      ArmList(s.guards, s.list, s.tickets, g, s'.guards[g]);
      ArmGuards(s.guards, g, s'.guards[g], Holder(s), Holder(s'), s.snapshot);
    }
  }

  lemma ArmGuards(guards: seq<Guard>, g: nat, x: Guard, holder: Pc, holder': Pc, snapshot: seq<nat>)
    requires GuardsOk(guards, holder) && Chosen(guards, false, snapshot) && g < |guards|
    requires Fate(x) && x.state == Armed && !holder.Calling? && !holder'.Calling?
    ensures GuardsOk(guards[g := x], holder') && Chosen(guards[g := x], false, snapshot)
  {
  }

  ghost predicate SameTickets(guards: seq<Guard>, guards': seq<Guard>) {
    |guards'| == |guards| && forall v :: 0 <= v < |guards| ==> guards'[v].ticket == guards[v].ticket
  }

  lemma ShorterList(guards: seq<Guard>, guards': seq<Guard>, list: seq<nat>, tickets: nat, k: nat)
    requires NewestFirst(guards, list) && SameTickets(guards, guards') && k < |list|
    requires forall i :: 0 <= i < |list| ==> list[i] < |guards| && guards[list[i]].ticket < tickets
    ensures NewestFirst(guards', Without(list, k))
    ensures forall i :: 0 <= i < |Without(list, k)| ==>
      Without(list, k)[i] < |guards'| && guards'[Without(list, k)[i]].ticket < tickets
  {
    var q := Without(list, k);
    forall i | 0 <= i < |q|
      ensures q[i] == list[if i < k then i else i + 1]
      ensures Ticket(guards', q[i]) == Ticket(guards, list[if i < k then i else i + 1])
    {
    }
  }

  /** Taking guard g off the list. */
  lemma UnlinkedOk(guards: seq<Guard>, list: seq<nat>, tickets: nat, g: nat, x: Guard)
    requires ListOk(guards, list, tickets) && g < |guards| && guards[g].state == Armed
    requires x.state != Armed && x.ticket == guards[g].ticket
    ensures ListOk(guards[g := x], Removed(list, g), tickets)
  {
    var k, guards' := IndexOf(list, g), guards[g := x];
    NewestDistinct(guards, list);
    WithoutMembers(list, k);
    ShorterList(guards, guards', list, tickets, k);
    forall v | 0 <= v < |guards'|
      ensures guards'[v].state == Armed <==> v in Removed(list, g)
    {
      assert v in Removed(list, g) <==> v in list && v != g;
    }
  }

  lemma NewestDistinct(guards: seq<Guard>, q: seq<nat>)
    requires NewestFirst(guards, q)
    ensures Distinct(q)
  {
    forall i, j | 0 <= i < j < |q|
      ensures q[i] != q[j]
    {
      assert Ticket(guards, q[i]) > Ticket(guards, q[j]);
    }
  }

  lemma DisarmInv(s: State, t: nat, g: nat)
    requires Inv(s) && t < |s.threads| && s.threads[t] == Disarming(g)
    ensures Inv(DisarmApply(s, t, g))
  {
    var s' := DisarmApply(s, t, g);
    PcMoves(s, s', t, Unlocking(false));
    var x := s.guards[g];
    assert Fate(x);
    if x.state == Armed {
      assert g in s.list;
      UnlinkedOk(s.guards, s.list, s.tickets, g, s'.guards[g]);
    } else {
      SameState(s.guards, s.list, s.tickets, g, s'.guards[g]);
    }
    GuardMoves(s.guards, g, s'.guards[g], Holder(s), Holder(s'), s.cancelled, s.snapshot);
    assert Current(Holder(s')) == Current(Holder(s));
  }

  lemma SameState(guards: seq<Guard>, list: seq<nat>, tickets: nat, g: nat, x: Guard)
    requires ListOk(guards, list, tickets) && g < |guards| && x.state == guards[g].state && x.ticket == guards[g].ticket
    ensures ListOk(guards[g := x], list, tickets)
  {
    assert forall v: nat :: Ticket(guards[g := x], v) == Ticket(guards, v);
  }

  lemma PopInv(s: State, t: nat)
    requires Inv(s) && t < |s.threads| && s.threads[t] == Popping
    ensures Inv(PopApply(s, t))
  {
    var s' := PopApply(s, t);
    PcMoves(s, s', t, s'.threads[t]);
    if s.list == [] {
      OtherHolder(s.guards, Holder(s), Holder(s'));
    } else {
      var g := s.list[0];
      assert g in s.list && Fate(s.guards[g]);
      assert IndexOf(s.list, g) == 0 && Removed(s.list, g) == s.list[1..];
      Front(s.ran, s.list, s.snapshot);
      UnlinkedOk(s.guards, s.list, s.tickets, g, s'.guards[g]);
      GuardMoves(s.guards, g, s'.guards[g], Holder(s), Holder(s'), s.cancelled, s.snapshot);
    }
  }

  lemma Front(a: seq<nat>, q: seq<nat>, all: seq<nat>)
    requires q != [] && a + [] + q == all
    ensures a + [q[0]] + q[1..] == all && q[0] in all
  {
    assert all[|a|] == q[0];
  }

  lemma ReturnInv(s: State, t: nat, g: nat)
    requires Inv(s) && t < |s.threads| && s.threads[t] == Calling(g)
    ensures Inv(ReturnApply(s, t, g))
  {
    var s' := ReturnApply(s, t, g);
    PcMoves(s, s', t, Popping);
    assert Fate(s.guards[g]);
    assert s.ran + [g] + s.list == s'.ran + [] + s'.list;
    SameState(s.guards, s.list, s.tickets, g, s'.guards[g]);
    GuardMoves(s.guards, g, s'.guards[g], Holder(s), Holder(s'), s.cancelled, s.snapshot);
  }

  lemma SwapInv(s: State, t: nat)
    requires Inv(s) && t < |s.threads| && s.threads[t] == CancelSwap
    ensures Inv(AdvanceApply(s, t))
  {
    var s' := AdvanceApply(s, t);
    PcMoves(s, s', t, s'.threads[t]);
    if s.cancelled {
      Moves(s, s', t, Unlocking(false));
    } else {
      OtherHolder(s.guards, Holder(s), Holder(s'));
      assert [] + [] + s.list == s.list;
      SwapChosen(s.guards, s.list, s.tickets, s.snapshot);
    }
  }

  lemma SwapChosen(guards: seq<Guard>, list: seq<nat>, tickets: nat, snapshot: seq<nat>)
    requires ListOk(guards, list, tickets) && Chosen(guards, false, snapshot)
    ensures Chosen(guards, true, list)
  {
    forall g | g in list
      ensures g < |guards| && guards[g].state == Armed
    {
      var i :| 0 <= i < |list| && list[i] == g;
    }
  }

  lemma UnlockInv(s: State, t: nat)
    requires Inv(s) && t < |s.threads| && s.threads[t].Unlocking?
    ensures Inv(AdvanceApply(s, t))
  {
    var s' := AdvanceApply(s, t);
    PcMoves(s, s', t, Outside);
    OtherHolder(s.guards, Holder(s), Outside);
    assert Current(Holder(s')) == Current(Holder(s));
  }

  lemma AdvanceInv(s: State, t: nat)
    requires Inv(s) && Enabled(s, Advance(t))
    ensures Inv(AdvanceApply(s, t))
  {
    match s.threads[t]
    case CancelEntry => Moves(s, AdvanceApply(s, t), t, CancelSwap);
    case CancelSwap => SwapInv(s, t);
    case Popping => PopInv(s, t);
    case Calling(g) => ReturnInv(s, t, g);
    case Arming(g) => ArmInv(s, t, g);
    case Disarming(g) => DisarmInv(s, t, g);
    case Unlocking(won) => UnlockInv(s, t);
  }

  lemma NewGuardOk(guards: seq<Guard>, list: seq<nat>, tickets: nat, holder: Pc, cancelled: bool, snapshot: seq<nat>)
    requires ListOk(guards, list, tickets) && GuardsOk(guards, holder) && Chosen(guards, cancelled, snapshot)
    ensures var more := guards + [Guard(Idle, 0, 0, 0, 0, 0, 0)];
      ListOk(more, list, tickets) && GuardsOk(more, holder) && Chosen(more, cancelled, snapshot)
  {
    var more := guards + [Guard(Idle, 0, 0, 0, 0, 0, 0)];
    assert |guards| !in list;
    assert forall v: nat :: Ticket(more, v) == Ticket(guards, v);
  }

  lemma ArrivalInv(s: State, step: Step)
    requires Inv(s) && (step == NewThread || step == NewGuard)
    ensures Inv(Apply(s, step))
  {
    var s' := Apply(s, step);
    assert Holder(s') == Holder(s);
    if step == NewGuard {
      NewGuardOk(s.guards, s.list, s.tickets, Holder(s), s.cancelled, s.snapshot);
    }
  }

  lemma InvStep(s: State, step: Step)
    requires Inv(s) && Enabled(s, step)
    ensures Inv(Apply(s, step))
  {
    match step
    case StartCancel(t) => Moves(s, Apply(s, step), t, if s.cancelled then Outside else CancelEntry);
    case StartArm(t, g) => Moves(s, Apply(s, step), t, Arming(g));
    case StartDisarm(t, g) => Moves(s, Apply(s, step), t, Disarming(g));
    case Advance(t) => AdvanceInv(s, t);
    case _ => ArrivalInv(s, step);
  }

  lemma {:induction false} InvRun(s: State, steps: seq<Step>)
    requires Inv(s) && Legal(s, steps)
    ensures Inv(Exec(s, steps))
    decreases |steps|
  {
    if steps == [] {
    } else {
      InvStep(s, steps[0]);
      InvRun(Apply(s, steps[0]), steps[1..]);
    }
  }

  // ----- main results -----

  /** For a guard that was armed, exactly one of three holds: it is still linked; one
      disarm returned true and its callback never starts; its callback started once, and
      it has finished if any disarm returned false. */
  lemma GuardDichotomy(s: State, steps: seq<Step>, g: nat)
    requires Init(s) && Legal(s, steps) && g < |Exec(s, steps).guards| && Exec(s, steps).guards[g].arms > 0
    ensures var e := Exec(s, steps); var x := e.guards[g];
      && x.arms == 1
      && (g in e.list ==> x.disarms == 0 && x.misses == 0 && x.started == 0)
      && (x.disarms > 0 ==> g !in e.list && x.disarms == 1 && x.started == 0 && x.finished == 0)
      && (x.started > 0 ==> g !in e.list && x.started == 1 && x.finished <= 1 && x.disarms == 0
                            && (x.misses > 0 ==> x.finished == 1))
      && (g in e.list || x.disarms > 0 || x.started > 0)
  {
    InvRun(s, steps);
    assert Fate(Exec(s, steps).guards[g]);
  }

  lemma RanOnce(e: State, g: nat)
    requires ListOk(e.guards, e.list, e.tickets) && GuardsOk(e.guards, Outside) && Chosen(e.guards, e.cancelled, e.snapshot)
    requires e.cancelled && e.list == [] && g < |e.guards|
    ensures g in e.snapshot <==> e.guards[g].started == 1
    ensures g in e.snapshot <==> e.guards[g].finished == 1
  {
    assert Fate(e.guards[g]);
  }

  ghost predicate Complete(e: State) {
    && e.list == [] && e.ran == e.snapshot && NewestFirst(e.guards, e.ran) && Distinct(e.ran)
    && (forall g :: 0 <= g < |e.guards| ==> (g in e.ran <==> e.guards[g].started == 1))
    && (forall g :: 0 <= g < |e.guards| ==> (g in e.ran <==> e.guards[g].finished == 1))
    && (forall t, g :: 0 <= t < |e.threads| && e.threads[t] == Arming(g) ==> ArmApply(e, t, g).list == [])
  }

  lemma CompleteNow(e: State)
    requires Inv(e) && e.cancelled && !Holder(e).Popping? && !Holder(e).Calling?
    ensures Complete(e)
  {
    assert e.ran + [] + [] == e.ran == e.snapshot;
    OtherHolder(e.guards, Holder(e), Outside);
    NewestDistinct(e.guards, e.ran);
    forall g | 0 <= g < |e.guards|
      ensures g in e.ran <==> e.guards[g].started == 1
      ensures g in e.ran <==> e.guards[g].finished == 1
    {
      RanOnce(e, g);
    }
  }

  /** The winning cancel has returned, or at least nobody is in its loop. */
  ghost predicate PastLoop(e: State) {
    e.returned || (e.cancelled && forall t :: 0 <= t < |e.threads| ==> !e.threads[t].Popping? && !e.threads[t].Calling?)
  }

  lemma HolderPastLoop(e: State)
    requires Progress(e, Holder(e)) && PastLoop(e)
    ensures e.cancelled && !Holder(e).Popping? && !Holder(e).Calling?
  {
  }

  /** Once a scope is cancelled and nobody is in the loop of cancel, and so in particular once
      the winning cancel has returned, the list is empty for good, and the callbacks that
      ran are those of the guards armed when it began, most recently armed first, each run
      once and finished; no later arm can link. */
  lemma CancelIsComplete(s: State, steps: seq<Step>)
    requires Init(s) && Legal(s, steps) && PastLoop(Exec(s, steps))
    ensures Exec(s, steps).cancelled && Complete(Exec(s, steps))
  {
    InvRun(s, steps);
    HolderPastLoop(Exec(s, steps));
    CompleteNow(Exec(s, steps));
  }

  /** The snapshot taken by the winning swap is the set of armed guards. */
  lemma SnapshotIsArmed(s: State, steps: seq<Step>, t: nat)
    requires Init(s) && Legal(s, steps) && t < |Exec(s, steps).threads|
    requires Exec(s, steps).threads[t] == CancelSwap && !Exec(s, steps).cancelled
    ensures var e := Exec(s, steps); var e' := AdvanceApply(e, t);
      e'.cancelled && forall g :: 0 <= g < |e.guards| ==> (g in e'.snapshot <==> e.guards[g].state == Armed)
  {
    InvRun(s, steps);
    assert AdvanceApply(Exec(s, steps), t).snapshot == Exec(s, steps).list;
  }
}
