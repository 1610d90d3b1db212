/** One oneshot channel under every interleaving of its sender, its awaiting receiver and
    the receiver's cancel scope. Critical sections of the channel's mutex, critical
    sections of the scope's mutex, reads of the scope's flag and hand-overs to the runtime
    are one step each. The scope keeps its mutex from the winning swap until the callback
    is over. A receiver without a scope is one whose scope is never cancelled. */
module OneshotProtocol {
  import opened GuardStates
  import opened OneshotCore
  import opened Options

  /** Waking: a waiter was taken out and is not handed to the runtime yet. */
  datatype SenderPc = Sending | SendWaking | DropWaking | SenderGone

  datatype ReceiverPc<V> =
    | Unawaited
    | CheckReady
    | ToArm
    | ToRegister
    | Suspended
    | Resuming
    | Finishing
    | Done(result: Outcome<V>)
    | ReceiverGone

  datatype ScopePc = Open | Swapped | InCallback | CallbackWaking | Closing | Closed

  datatype Attempt<V> = Attempt(v: V, ok: bool)

  /** armed: the receiver's guard was armed; wakes: hand-overs of the receiver's handle;
      inline: it carried on without suspending; scopeCancelled: the scope's flag. */
  datatype State<V> = State(
    cell: Cell<V, ()>,
    sender: SenderPc,
    receiver: ReceiverPc<V>,
    scope: ScopePc,
    scopeCancelled: bool,
    guard: GuardState,
    armed: bool,
    wakes: nat,
    inline: bool,
    sends: seq<Attempt<V>>)

  datatype Step<V> =
    | Send(v: V)
    | SenderDrop
    | SenderWake
    | Await
    | Check
    | Arm
    | RegisterWaiter
    | Resume
    | Disarm
    | FinishAwait
    | ReceiverDrop
    | Swap
    | FireGuard
    | TakeInCallback
    | CallbackWake
    | Unlock

  predicate ScopeLocked<V>(s: State<V>) {
    !s.scope.Open? && !s.scope.Closed?
  }

  predicate Enabled<V>(s: State<V>, step: Step<V>) {
    match step
    case Send(v) => s.sender.Sending?
    case SenderDrop => s.sender.Sending?
    case SenderWake => s.sender.SendWaking? || s.sender.DropWaking?
    case Await => s.receiver.Unawaited?
    case Check => s.receiver.CheckReady?
    case Arm => s.receiver.ToArm? && !ScopeLocked(s)
    case RegisterWaiter => s.receiver.ToRegister?
    case Resume => s.receiver.Suspended? && s.wakes > 0
    case Disarm => s.receiver.Resuming? && !ScopeLocked(s)
    case FinishAwait => s.receiver.Finishing?
    case ReceiverDrop => s.receiver.Unawaited? || s.receiver.Done?
    case Swap => s.scope.Open?
    case FireGuard => s.scope.Swapped?
    case TakeInCallback => s.scope.InCallback?
    case CallbackWake => s.scope.CallbackWaking?
    case Unlock => s.scope.Closing?
  }

  function SendApply<V>(s: State<V>, v: V): State<V> {
    var ok := Accepts(s.cell);
    s.(cell := SetValue(s.cell, v), sends := s.sends + [Attempt(v, ok)],
       sender := if ok && s.cell.waiter.Some? then SendWaking else Sending)
  }

  function GoOn<V>(s: State<V>): State<V> {
    s.(receiver := Resuming, inline := true)
  }

  function Apply<V>(s: State<V>, step: Step<V>): State<V>
    requires Enabled(s, step)
  {
    match step
    case Send(v) => SendApply(s, v)
    case SenderDrop => s.(cell := DropSender(s.cell), sender := if s.cell.waiter.Some? then DropWaking else SenderGone)
    case SenderWake => s.(wakes := s.wakes + 1, sender := if s.sender.SendWaking? then Sending else SenderGone)
    case Await => if s.scopeCancelled then GoOn(s) else s.(receiver := CheckReady)
    case Check => if s.cell.ready || s.cell.senderDropped then GoOn(s) else s.(receiver := ToArm)
    case Arm => if s.scopeCancelled then GoOn(s) else s.(receiver := ToRegister, guard := Armed, armed := true)
    case RegisterWaiter =>
      if Resolved(s.cell) then GoOn(s) else s.(cell := Register(s.cell, ()), receiver := Suspended)
    case Resume => s.(receiver := Resuming)
    case Disarm => s.(receiver := Finishing, guard := if s.guard == Armed then Disarmed else s.guard)
    case FinishAwait => s.(receiver := Done(Finish(s.cell, s.scopeCancelled)))
    case ReceiverDrop => s.(cell := DropReceiver(s.cell), receiver := ReceiverGone)
    case Swap => s.(scopeCancelled := true, scope := Swapped)
    case FireGuard => if s.guard == Armed then s.(guard := Fired, scope := InCallback) else s.(scope := Closing)
    case TakeInCallback => s.(cell := Cancel(s.cell), scope := if s.cell.waiter.Some? then CallbackWaking else Closing)
    case CallbackWake => s.(wakes := s.wakes + 1, scope := Closing)
    case Unlock => s.(scope := Closed)
  }

  ghost predicate Init<V>(s: State<V>) {
    s == State(Empty(), Sending, Unawaited, Open, false, Idle, false, 0, false, [])
  }

  ghost predicate Legal<V>(s: State<V>, steps: seq<Step<V>>)
    decreases |steps|
  {
    steps == [] || (Enabled(s, steps[0]) && Legal(Apply(s, steps[0]), steps[1..]))
  }

  ghost function Exec<V>(s: State<V>, steps: seq<Step<V>>): State<V>
    requires Legal(s, steps)
    decreases |steps|
  {
    if steps == [] then s else Exec(Apply(s, steps[0]), steps[1..])
  }

  // ----- the invariant -----

  function Count(b: bool): nat {
    if b then 1 else 0
  }

  /** Hand-overs of the receiver's handle, made or under way. */
  function Taken<V>(s: State<V>): nat {
    s.wakes + Count(s.sender.SendWaking? || s.sender.DropWaking?) + Count(s.scope.CallbackWaking?)
  }

  ghost predicate CellOk<V>(s: State<V>) {
    && (s.cell.ready <==> s.cell.value.Some?)
    && Count(s.cell.ready) + Count(s.cell.senderDropped) + Count(s.cell.cancelled) <= 1
    && (s.cell.waiter.Some? ==> !Resolved(s.cell) && s.receiver.Suspended?)
    && (s.cell.cancelled ==> s.guard == Fired)
    && (s.cell.receiverDropped <==> s.receiver.ReceiverGone?)
    && (s.sender.Sending? || s.sender.SendWaking? ==> !s.cell.senderDropped)
    && (s.sender.SenderGone? || s.sender.DropWaking? ==> Resolved(s.cell))
  }

  ghost predicate Early<V>(pc: ReceiverPc<V>) {
    pc.Unawaited? || pc.CheckReady? || pc.ToArm? || pc.ToRegister?
  }

  /** Exactly one way to be resumed. */
  ghost predicate ResumeOk<V>(s: State<V>) {
    && Taken(s) + Count(s.cell.waiter.Some?) + Count(s.inline) <= 1
    && (Early(s.receiver) ==> Taken(s) == 0 && s.cell.waiter == None && !s.inline)
    && (s.receiver.Suspended? ==> Taken(s) + Count(s.cell.waiter.Some?) == 1 && !s.inline)
    && (Taken(s) > 0 ==> Resolved(s.cell))
    && (s.receiver.Resuming? || s.receiver.Finishing? || s.receiver.Done? ==> s.inline || s.wakes == 1)
    && (s.receiver.ReceiverGone? ==> Taken(s) == s.wakes)
  }

  ghost predicate GuardOk<V>(s: State<V>) {
    && (s.armed <==> s.guard != Idle)
    && (s.receiver.ToRegister? || s.receiver.Suspended? ==> s.guard == Armed || s.guard == Fired)
    && (s.guard == Fired || ScopeLocked(s) || s.scope.Closed? ==> s.scopeCancelled)
    && (s.scope.InCallback? || s.scope.CallbackWaking? ==> s.guard == Fired)
    && (s.scope.Closing? || s.scope.Closed? || s.scope.CallbackWaking? ==> s.guard != Armed)
    && (s.guard == Fired && !s.scope.InCallback? ==> Resolved(s.cell))
    && (s.receiver.Finishing? || s.receiver.Done? ==> s.guard != Armed)
    && (s.receiver.Unawaited? || s.receiver.CheckReady? || s.receiver.ToArm? ==> !s.armed)
    && (s.armed && !Early(s.receiver) && !s.receiver.Suspended? && !s.receiver.ReceiverGone? ==> Resolved(s.cell))
    && (s.receiver.Resuming? || s.receiver.Finishing? ==> Resolved(s.cell) || s.scopeCancelled)
    && (s.scope.Open? ==> !s.scopeCancelled)
  }

  /** At most one send succeeded, and its value is the channel's. */
  ghost predicate SendsOk<V>(sends: seq<Attempt<V>>, cell: Cell<V, ()>) {
    && (forall i, j :: 0 <= i < j < |sends| ==> !(sends[i].ok && sends[j].ok))
    && (forall i :: 0 <= i < |sends| && sends[i].ok ==> cell.ready && cell.value == Some(sends[i].v))
    && (cell.ready ==> exists i :: 0 <= i < |sends| && sends[i].ok)
  }

  /** Only a send makes the channel ready. */
  lemma SendsStay<V>(sends: seq<Attempt<V>>, cell: Cell<V, ()>, cell': Cell<V, ()>)
    requires SendsOk(sends, cell) && cell'.ready == cell.ready && cell'.value == cell.value
    ensures SendsOk(sends, cell')
  {
  }

  ghost predicate ResultOk<V>(s: State<V>) {
    s.receiver.Done? ==>
      match s.receiver.result
      case Value(v) => s.cell.ready && s.cell.value == Some(v)
      case _ => s.armed ==> !s.cell.ready
  }

  ghost predicate Inv<V>(s: State<V>) {
    CellOk(s) && ResumeOk(s) && GuardOk(s) && SendsOk(s.sends, s.cell) && ResultOk(s)
  }

  lemma SendInv<V>(s: State<V>, v: V)
    requires Inv(s) && s.sender.Sending?
    ensures Inv(SendApply(s, v))
  {
    var s' := SendApply(s, v);
    assert s'.sends[|s.sends|] == Attempt(v, Accepts(s.cell));
    if s.cell.ready {
      var i :| 0 <= i < |s.sends| && s.sends[i].ok;
      assert s'.sends[i].ok;
    }
  }

  lemma InvStep<V>(s: State<V>, step: Step<V>)
    requires Inv(s) && Enabled(s, step)
    ensures Inv(Apply(s, step))
  {
    match step
    case Send(v) => SendInv(s, v);
    case SenderDrop => ResolverInv(s, step);
    case SenderWake => ResolverInv(s, step);
    case Swap => ResolverInv(s, step);
    case FireGuard => ResolverInv(s, step);
    case TakeInCallback => ResolverInv(s, step);
    case CallbackWake => ResolverInv(s, step);
    case Unlock => ResolverInv(s, step);
    case _ => ReceiverInv(s, step);
  }

  predicate ByResolver<V>(step: Step<V>) {
    step.SenderDrop? || step.SenderWake? || step.Swap? || step.FireGuard? || step.TakeInCallback?
        || step.CallbackWake? || step.Unlock?
  }

  lemma ResolverResumes<V>(s: State<V>, step: Step<V>)
    requires Inv(s) && Enabled(s, step) && ByResolver(step)
    ensures CellOk(Apply(s, step)) && ResumeOk(Apply(s, step))
  {
  }

  lemma ResolverGuards<V>(s: State<V>, step: Step<V>)
    requires Inv(s) && Enabled(s, step) && ByResolver(step)
    ensures GuardOk(Apply(s, step)) && ResultOk(Apply(s, step))
  {
  }

  lemma ResolverInv<V>(s: State<V>, step: Step<V>)
    requires Inv(s) && Enabled(s, step) && ByResolver(step)
    ensures Inv(Apply(s, step))
  {
    ResolverResumes(s, step);
    ResolverGuards(s, step);
    SendsStay(s.sends, s.cell, Apply(s, step).cell);
  }

  lemma ReceiverResumes<V>(s: State<V>, step: Step<V>)
    requires Inv(s) && Enabled(s, step) && !step.Send? && !ByResolver(step)
    ensures CellOk(Apply(s, step)) && ResumeOk(Apply(s, step))
  {
  }

  lemma ReceiverGuards<V>(s: State<V>, step: Step<V>)
    requires Inv(s) && Enabled(s, step) && !step.Send? && !ByResolver(step)
    ensures GuardOk(Apply(s, step)) && ResultOk(Apply(s, step))
  {
  }

  lemma ReceiverInv<V>(s: State<V>, step: Step<V>)
    requires Inv(s) && Enabled(s, step) && !step.Send? && !ByResolver(step)
    ensures Inv(Apply(s, step))
  {
    ReceiverResumes(s, step);
    ReceiverGuards(s, step);
    SendsStay(s.sends, s.cell, Apply(s, step).cell);
  }

  lemma {:induction false} InvRun<V>(s: State<V>, steps: seq<Step<V>>)
    requires Inv(s) && Legal(s, steps)
    ensures Inv(Exec(s, steps))
    decreases |steps|
  {
    if steps == [] {
    } else {
      InvStep(s, steps[0]);
      InvRun(Apply(s, steps[0]), steps[1..]);
    }
  }

  // ----- main results -----

  /** The channel resolves once, nobody waits on a resolved channel, and the receiver is
      resumed at most once: inline, or by one hand-over after the resolution. When nothing
      is under way, a suspended receiver of a resolved channel has been handed over. */
  lemma ResolvesOnce<V>(s: State<V>, steps: seq<Step<V>>)
    requires Init(s) && Legal(s, steps)
    ensures var e := Exec(s, steps);
      && !(e.cell.ready && e.cell.senderDropped) && !(e.cell.ready && e.cell.cancelled)
      && !(e.cell.senderDropped && e.cell.cancelled)
      && (e.cell.waiter.Some? ==> !Resolved(e.cell) && e.receiver.Suspended?)
      && e.wakes <= 1 && !(e.inline && e.wakes > 0)
      && (e.wakes > 0 ==> Resolved(e.cell))
      && (e.receiver.Done? ==> (e.inline <==> e.wakes == 0))
      && (e.receiver.Suspended? && Resolved(e.cell) && Taken(e) == e.wakes ==> e.wakes == 1)
  {
    InvRun(s, steps);
  }

  /** For a receiver whose guard was armed, a send has succeeded with v exactly when the
      co_await yields v; otherwise every send so far, and every later one, is handed back. */
  lemma ArmedAgreement<V>(s: State<V>, steps: seq<Step<V>>, v: V)
    requires Init(s) && Legal(s, steps)
    requires Exec(s, steps).receiver.Done? && Exec(s, steps).armed
    ensures var e := Exec(s, steps);
      && (e.receiver.result == Value(v) <==> Attempt(v, true) in e.sends)
      && (!e.receiver.result.Value? ==>
            (forall i :: 0 <= i < |e.sends| ==> !e.sends[i].ok) && (e.sender.Sending? ==> !Accepts(e.cell)))
  {
    InvRun(s, steps);
    var e := Exec(s, steps);
    if e.receiver.result == Value(v) {
      var i :| 0 <= i < |e.sends| && e.sends[i].ok;
      assert e.sends[i] == Attempt(v, true);
    }
  }

  /** What the co_await yields, read off the state e in which await_resume looks: the value if
      there is one; else that it was cancelled, if the channel or the scope was; else, and
      only when the sender went without a send, that the channel is closed. */
  ghost predicate Answers<V>(e: State<V>, answer: Outcome<V>) {
    && (answer.Value? <==> e.cell.ready)
    && (answer.Value? ==> e.cell.value == Some(answer.v))
    && (answer == Cancelled <==> !e.cell.ready && (e.cell.cancelled || e.scopeCancelled))
    && (answer == ChannelClosed <==> e.cell.senderDropped && !e.cell.cancelled && !e.scopeCancelled)
  }

  lemma AnswerNow<V>(e: State<V>)
    requires Inv(e) && e.receiver.Finishing?
    ensures Apply(e, FinishAwait).receiver.Done? && Answers(e, Apply(e, FinishAwait).receiver.result)
  {
  }

  /** An answer given stays until the receiver goes, and that is for good. */
  lemma {:induction false} AnswerStays<V>(s: State<V>, steps: seq<Step<V>>)
    requires Legal(s, steps) && (s.receiver.Done? || s.receiver.ReceiverGone?)
    ensures Exec(s, steps).receiver == s.receiver || Exec(s, steps).receiver.ReceiverGone?
    decreases |steps|
  {
    if steps == [] {
    } else {
      AnswerStays(Apply(s, steps[0]), steps[1..]);
    }
  }

  /** A co_await that is done looked at the state once, at step n of the run, and its answer
      is the one that this state calls for. */
  lemma AwaitAnswers<V>(s: State<V>, steps: seq<Step<V>>) returns (n: nat)
    requires Init(s) && Legal(s, steps) && Exec(s, steps).receiver.Done?
    ensures n < |steps| && steps[n] == FinishAwait && Legal(s, steps[..n])
    ensures Answers(Exec(s, steps[..n]), Exec(s, steps).receiver.result)
  {
    n := AnsweredAt(s, steps);
  }

  lemma {:induction false} AnsweredAt<V>(s: State<V>, steps: seq<Step<V>>) returns (n: nat)
    requires Inv(s) && Legal(s, steps) && Exec(s, steps).receiver.Done? && !s.receiver.Done?
    ensures n < |steps| && steps[n] == FinishAwait && Legal(s, steps[..n])
    ensures Answers(Exec(s, steps[..n]), Exec(s, steps).receiver.result)
    decreases |steps|
  {
    var s' := Apply(s, steps[0]);
    if s'.receiver.Done? {
      n := 0;
      AnswerNow(s);
      AnswerStays(s', steps[1..]);
    } else {
      InvStep(s, steps[0]);
      var m := AnsweredAt(s', steps[1..]);
      n := m + 1;
      assert steps[..n][1..] == steps[1..][..m];
    }
  }

  /** A sender that goes without a send closes the channel: the co_await says so. */
  lemma ChannelCloses<V>() returns (s: State<V>, steps: seq<Step<V>>)
    ensures Init(s) && Legal(s, steps) && Exec(s, steps).receiver == Done(ChannelClosed)
  {
    s := State(Empty(), Sending, Unawaited, Open, false, Idle, false, 0, false, []);
    var s1 := Apply(s, SenderDrop);
    var s2 := Apply(s1, Await);
    var s3 := Apply(s2, Check);
    var s4 := Apply(s3, Disarm);
    steps := Then(s4, FinishAwait, []);
    steps := Then(s3, Disarm, steps);
    steps := Then(s2, Check, steps);
    steps := Then(s1, Await, steps);
    steps := Then(s, SenderDrop, steps);
  }

  /** Without an armed guard (the scope was cancelled before) agreement can still break:
      after the receiver got no value, a live sender's next send succeeds exactly when the
      guard was never armed. */
  lemma LateSend<V>(s: State<V>, steps: seq<Step<V>>)
    requires Init(s) && Legal(s, steps)
    requires var e := Exec(s, steps); e.receiver.Done? && !e.receiver.result.Value? && e.sender.Sending? && !e.cell.ready
    ensures Accepts(Exec(s, steps).cell) <==> !Exec(s, steps).armed
  {
    InvRun(s, steps);
  }

  /** Such a disagreement does occur: the scope is cancelled, the await sees it at once,
      and a send succeeds before the awaiter is destroyed. */
  lemma LateSendOccurs<V>(v: V) returns (s: State<V>, steps: seq<Step<V>>)
    ensures Init(s) && Legal(s, steps)
    ensures var e := Exec(s, steps); e.receiver == Done(Cancelled) && e.sends == [Attempt(v, true)]
  {
    s := State(Empty(), Sending, Unawaited, Open, false, Idle, false, 0, false, []);
    var s1 := Apply(s, Swap);
    var s2 := Apply(s1, FireGuard);
    var s3 := Apply(s2, Unlock);
    var s4 := Apply(s3, Await);
    var s5 := Apply(s4, Disarm);
    var s6 := Apply(s5, FinishAwait);
    steps := [Send(v)];
    assert steps[1..] == [];
    assert Legal(s6, steps);
    steps := Then(s5, FinishAwait, steps);
    steps := Then(s4, Disarm, steps);
    steps := Then(s3, Await, steps);
    steps := Then(s2, Unlock, steps);
    steps := Then(s1, FireGuard, steps);
    steps := Then(s, Swap, steps);
  }

  lemma Then<V>(s: State<V>, step: Step<V>, rest: seq<Step<V>>) returns (steps: seq<Step<V>>)
    requires Enabled(s, step) && Legal(Apply(s, step), rest)
    ensures Legal(s, steps) && Exec(s, steps) == Exec(Apply(s, step), rest)
  {
    steps := [step] + rest;
    assert steps[1..] == rest;
  }

  /** A refused send has its reason: a send before it succeeded, or the receiver went, or
      the channel was cancelled. */
  ghost predicate Refusals<V>(s: State<V>) {
    && (s.cell.ready ==> exists j :: 0 <= j < |s.sends| && s.sends[j].ok)
    && forall i :: 0 <= i < |s.sends| && !s.sends[i].ok ==>
         s.cell.receiverDropped || s.cell.cancelled || exists j :: 0 <= j < i && s.sends[j].ok
  }

  lemma RefusalsStep<V>(s: State<V>, step: Step<V>)
    requires Refusals(s) && Enabled(s, step)
    ensures Refusals(Apply(s, step))
  {
    var s' := Apply(s, step);
    if step.Send? {
      assert s'.sends[|s.sends|] == Attempt(step.v, Accepts(s.cell));
      assert forall j :: 0 <= j < |s.sends| ==> s'.sends[j] == s.sends[j];
    } else {
      assert s'.sends == s.sends;
    }
  }

  lemma {:induction false} RefusalsRun<V>(s: State<V>, steps: seq<Step<V>>)
    requires Refusals(s) && Legal(s, steps)
    ensures Refusals(Exec(s, steps))
    decreases |steps|
  {
    if steps == [] {
    } else {
      RefusalsStep(s, steps[0]);
      RefusalsRun(Apply(s, steps[0]), steps[1..]);
    }
  }

  lemma RefusedForReason<V>(s: State<V>, steps: seq<Step<V>>, i: nat)
    requires Init(s) && Legal(s, steps) && i < |Exec(s, steps).sends|
    ensures var e := Exec(s, steps);
      e.sends[i].ok || e.cell.receiverDropped || e.cell.cancelled || exists j :: 0 <= j < i && e.sends[j].ok
  {
    RefusalsRun(s, steps);
  }

  /** In every reachable state with a live sender a send is accepted exactly if nothing was sent
      before, the receiver is there and nobody cancelled. It leaves the sender as it was, with
      the waiter to hand over first if there is one. */
  lemma SendWorks<V>(s: State<V>, steps: seq<Step<V>>, v: V)
    requires Init(s) && Legal(s, steps) && Exec(s, steps).sender.Sending?
    ensures var e := Exec(s, steps); var f := Apply(e, Send(v));
      var ok := !e.cell.ready && !e.cell.receiverDropped && !e.cell.cancelled;
      && f.sends == e.sends + [Attempt(v, ok)]
      && (if ok then f.cell.ready && f.cell.value == Some(v) else f.cell == e.cell)
      && f.receiver == e.receiver && f.wakes == e.wakes
      && if ok && e.cell.waiter.Some? then
           Enabled(f, SenderWake) && Apply(f, SenderWake) == f.(wakes := e.wakes + 1, sender := Sending)
         else f.sender == Sending
  {
    InvRun(s, steps);
  }

  // ----- everything ends -----

  /** What the ends of the channel and the holder of the scope do when they like; all other
      steps finish what these began. */
  predicate Free<V>(step: Step<V>) {
    step.Send? || step.SenderDrop? || step.Await? || step.ReceiverDrop? || step.Swap?
  }

  function ReceiverLeft<V>(pc: ReceiverPc<V>): nat {
    match pc
    case Unawaited => 9
    case CheckReady => 8
    case ToArm => 7
    case ToRegister => 6
    case Suspended => 4
    case Resuming => 3
    case Finishing => 2
    case Done(_) => 1
    case ReceiverGone => 0
  }

  function ScopeLeft(pc: ScopePc): nat {
    match pc
    case Open => 5
    case Swapped => 4
    case InCallback => 3
    case CallbackWaking => 2
    case Closing => 1
    case Closed => 0
  }

  /** A bound on the steps still to come, not counting sends. */
  function Left<V>(s: State<V>): nat {
    ReceiverLeft(s.receiver) + ScopeLeft(s.scope) + Count(s.cell.waiter.Some?)
      + Count(s.sender.SendWaking? || s.sender.DropWaking?) + Count(s.sender.Sending? || s.sender.SendWaking?)
  }

  function Work<V>(steps: seq<Step<V>>): nat {
    if steps == [] then 0 else Count(!steps[0].Send?) + Work(steps[1..])
  }

  lemma LeftShrinks<V>(s: State<V>, step: Step<V>)
    requires Inv(s) && Enabled(s, step)
    ensures Left(Apply(s, step)) + Count(!step.Send?) <= Left(s)
  {
  }

  lemma {:induction false} WorkIsBounded<V>(s: State<V>, steps: seq<Step<V>>)
    requires Inv(s) && Legal(s, steps)
    ensures Work(steps) + Left(Exec(s, steps)) <= Left(s)
    decreases |steps|
  {
    if steps == [] {
    } else {
      InvStep(s, steps[0]);
      LeftShrinks(s, steps[0]);
      WorkIsBounded(Apply(s, steps[0]), steps[1..]);
    }
  }

  ghost predicate Quiet<V(!new)>(s: State<V>) {
    forall step :: Enabled(s, step) ==> Free(step)
  }

  lemma QuietEnds<V(!new)>(e: State<V>)
    requires Quiet(e)
    ensures (e.sender.Sending? || e.sender.SenderGone?) && (e.scope.Open? || e.scope.Closed?)
    ensures e.receiver.Unawaited? || e.receiver.Done? || e.receiver.ReceiverGone? || e.receiver.Suspended?
    ensures e.receiver.Suspended? ==> e.wakes == 0
  {
    assert !Enabled(e, SenderWake) && !Enabled(e, FireGuard) && !Enabled(e, TakeInCallback);
    assert !Enabled(e, CallbackWake) && !Enabled(e, Unlock);
    assert !Enabled(e, Check) && !Enabled(e, Arm) && !Enabled(e, RegisterWaiter);
    assert !Enabled(e, Resume) && !Enabled(e, Disarm) && !Enabled(e, FinishAwait);
  }

  /** A suspended receiver that nobody is about to wake waits for a live sender. */
  lemma WaitsForSender<V>(e: State<V>)
    requires Inv(e) && e.receiver.Suspended? && e.wakes == 0
    requires (e.sender.Sending? || e.sender.SenderGone?) && (e.scope.Open? || e.scope.Closed?)
    ensures e.sender.Sending? && !e.cell.ready && !e.cell.cancelled && !e.scopeCancelled
  {
    assert e.cell.waiter.Some?;
  }

  /** A channel takes a bounded number of steps besides sends; and when only its users could
      take a step, the co_await has its answer, was not begun, or waits for a live sender
      with nothing sent and nothing cancelled. */
  lemma AwaitEnds<V(!new)>(s: State<V>, steps: seq<Step<V>>)
    requires Init(s) && Legal(s, steps)
    ensures Work(steps) <= 15
    ensures var e := Exec(s, steps);
      Quiet(e) ==>
        || e.receiver.Unawaited? || e.receiver.Done? || e.receiver.ReceiverGone?
        || (e.receiver.Suspended? && e.sender.Sending? && !e.cell.ready && !e.cell.cancelled && !e.scopeCancelled)
  {
    WorkIsBounded(s, steps);
    InvRun(s, steps);
    var e := Exec(s, steps);
    if Quiet(e) {
      QuietEnds(e);
      if e.receiver.Suspended? {
        WaitsForSender(e);
      }
    }
  }

  // ----- join -----

  /** How a finishing root uses its sender: it sends the outcome before its frame, and
      with it the sender, is destroyed. The joiner's scope is not cancelled. */
  ghost predicate RootSends<V>(s: State<V>, steps: seq<Step<V>>)
    requires Legal(s, steps)
    decreases |steps|
  {
    steps == [] ||
      (!steps[0].Swap? && (steps[0].SenderDrop? ==> s.sends != []) && RootSends(Apply(s, steps[0]), steps[1..]))
  }

  ghost predicate Kept<V>(s: State<V>) {
    && s.scope.Open? && !s.scopeCancelled
    && (s.sends == [] ==> !s.cell.ready) && (s.cell.senderDropped ==> s.sends != [])
    && (s.sends != [] ==> s.cell.ready || s.receiver.ReceiverGone?)
    && (s.cell.ready && s.sends != [] && s.sends[0].ok ==> s.cell.value == Some(s.sends[0].v))
    && (!s.receiver.ReceiverGone? && s.sends != [] ==> s.sends[0].ok && s.cell.ready)
    && (s.receiver.Resuming? || s.receiver.Finishing? ==> s.cell.ready)
    && (s.receiver.Done? ==> s.cell.ready && s.receiver.result.Value?)
  }

  lemma KeptStep<V>(s: State<V>, step: Step<V>)
    requires Inv(s) && Kept(s) && Enabled(s, step) && !step.Swap? && (step.SenderDrop? ==> s.sends != [])
    ensures Kept(Apply(s, step))
  {
  }

  lemma {:induction false} KeptRun<V>(s: State<V>, steps: seq<Step<V>>)
    requires Inv(s) && Kept(s) && Legal(s, steps) && RootSends(s, steps)
    ensures Inv(Exec(s, steps)) && Kept(Exec(s, steps))
    decreases |steps|
  {
    if steps == [] {
    } else {
      InvStep(s, steps[0]);
      KeptStep(s, steps[0]);
      KeptRun(Apply(s, steps[0]), steps[1..]);
    }
  }

  /** A join whose own scope is not cancelled yields the root's outcome: never cancelled,
      never channel_closed. */
  lemma JoinIsFaithful<V>(s: State<V>, steps: seq<Step<V>>)
    requires Init(s) && Legal(s, steps) && RootSends(s, steps) && Exec(s, steps).receiver.Done?
    ensures var e := Exec(s, steps); e.sends != [] && e.receiver.result == Value(e.sends[0].v)
  {
    KeptRun(s, steps);
  }
}
