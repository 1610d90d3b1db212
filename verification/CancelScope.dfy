/** A cancel scope and its guards: an intrusive list of armed callbacks, changed in place
    under the scope's mutex. A callback is represented by the guard it belongs to; running
    it appends the guard to the scope's record of callbacks run. Callbacks touch no scope
    and no guard, as the source demands of them. */
module CancelScope {
  import opened GuardStates
  import opened Queues

  datatype ArmResult = NowArmed | AlreadyCancelled

  class Guard {
    var scope: Scope?
    var prev: Guard?
    var next: Guard?
    var state: GuardState
    var hasCallback: bool

    constructor (s: Scope?)
      ensures scope == s && prev == null && next == null && state == Idle && !hasCallback
    {
      scope, prev, next, state, hasCallback := s, null, null, Idle, false;
    }

    /** Guards the list operations may write to. */
    ghost function Reach(): set<Guard>
      reads this, scope
    {
      if scope == null then {} else set g | g in scope.List
    }

    method Arm() returns (r: ArmResult)
      requires state == Idle && (scope != null ==> scope.Valid())
      modifies this, scope, Reach()`prev
      ensures scope == old(scope)
      ensures scope != null ==> scope.Valid() && scope.ran == old(scope.ran) && scope.cancelled == old(scope.cancelled)
      ensures r == AlreadyCancelled <==> scope != null && old(scope.cancelled)
      ensures r == AlreadyCancelled ==> state == Idle && scope.List == old(scope.List)
      ensures r == NowArmed ==> state == Armed && (scope != null ==> hasCallback && scope.List == [this] + old(scope.List))
      ensures scope == null || r == AlreadyCancelled ==> hasCallback == old(hasCallback)
    {
      if scope == null {
        state := Armed;
        return NowArmed;
      }
      if scope.cancelled {
        return AlreadyCancelled;
      }
      hasCallback := true;
      state := Armed;
      scope.LinkLocked(this);
      return NowArmed;
    }

    method Disarm(ghost k: nat) returns (was: bool)
      requires scope != null ==> scope.Valid()
      requires scope != null && state == Armed ==> k < |scope.List| && scope.List[k] == this
      modifies this, scope, Reach()`prev, Reach()`next
      ensures scope == old(scope)
      ensures scope != null ==> scope.Valid() && scope.ran == old(scope.ran) && scope.cancelled == old(scope.cancelled)
      ensures was <==> old(state) == Armed
      ensures was || scope == null ==> state == Disarmed
      ensures was && scope != null ==> !hasCallback && scope.List == Without(old(scope.List), k)
      ensures !was && scope != null ==> state == old(state) && scope.List == old(scope.List)
    {
      if scope == null {
        was := state == Armed;
        state := Disarmed;
        return;
      }
      if state != Armed {
        return false;
      }
      scope.UnlinkLocked(this, k);
      hasCallback := false;
      state := Disarmed;
      return true;
    }
  }

  function PrevIn(q: seq<Guard>, i: nat): Guard?
    requires i <= |q|
  {
    if i == 0 then null else q[i - 1]
  }

  function NextIn(q: seq<Guard>, i: nat): Guard?
    requires i < |q|
  {
    if i == |q| - 1 then null else q[i + 1]
  }

  ghost predicate Links(q: seq<Guard>)
    reads q
  {
    && Distinct(q)
    && (forall i {:trigger q[i].prev} :: 0 <= i < |q| ==> q[i].prev == PrevIn(q, i))
    && (forall i {:trigger q[i].next} :: 0 <= i < |q| ==> q[i].next == NextIn(q, i))
  }

  /** The neighbours of element k point past it. */
  ghost predicate Bypassed(q: seq<Guard>, k: nat)
    requires k < |q|
    reads q
  {
    && (forall i {:trigger q[i].prev} :: 0 <= i < |q| && i != k ==>
          q[i].prev == if i == k + 1 then PrevIn(q, k) else PrevIn(q, i))
    && (forall i {:trigger q[i].next} :: 0 <= i < |q| && i != k ==>
          q[i].next == if i == k - 1 then NextIn(q, k) else NextIn(q, i))
  }

  lemma BypassedLinks(q: seq<Guard>, k: nat)
    requires Distinct(q) && k < |q| && Bypassed(q, k)
    ensures Links(Without(q, k))
  {
    var r := Without(q, k);
    forall i | 0 <= i < |r|
      ensures r[i].prev == PrevIn(r, i) && r[i].next == NextIn(r, i)
    {
      assert r[i] == q[if i < k then i else i + 1];
    }
  }

  class Scope {
    var cancelled: bool
    var head: Guard?
    /** The guards whose callbacks have run, in order. */
    var ran: seq<Guard>
    ghost var List: seq<Guard>

    ghost predicate Linked()
      reads `head, `List, List
    {
      && head == (if List == [] then null else List[0])
      && Links(List)
    }

    /** Between the operations: the list holds armed guards of this scope, each with a callback
        to run, and none once the scope is cancelled. */
    ghost predicate Valid()
      reads `head, `List, `cancelled, List
    {
      && Linked()
      && (cancelled ==> List == [])
      && (forall i :: 0 <= i < |List| ==> List[i].state == Armed && List[i].hasCallback && List[i].scope == this)
    }

    constructor ()
      ensures Valid() && !cancelled && List == [] && ran == []
    {
      cancelled, head, ran, List := false, null, [], [];
    }

    method LinkLocked(g: Guard)
      requires Linked() && g !in List
      modifies this`head, this`List, g`prev, g`next, List`prev
      ensures Linked() && List == [g] + old(List)
    {
      g.prev := null;
      g.next := head;
      if head != null {
        head.prev := g;
      }
      head := g;
      List := [g] + List;
    }

    method UnlinkLocked(g: Guard, ghost k: nat)
      requires Linked() && k < |List| && List[k] == g
      modifies this`head, this`List, List`prev, List`next
      ensures Linked() && List == Without(old(List), k) && g.prev == null && g.next == null
    {
      ghost var q := List;
      if g.prev != null {
        g.prev.next := g.next;
      } else {
        head := g.next;
      }
      if g.next != null {
        g.next.prev := g.prev;
      }
      g.prev, g.next := null, null;
      BypassedLinks(q, k);
      List := Without(q, k);
    }

    /** Takes the first guard off the list and runs its callback. */
    method FireHead(ghost q: seq<Guard>, ghost k: nat)
      requires Linked() && k < |q| && List == q[k..] && q[k].hasCallback
      modifies this`head, this`List, this`ran, List`prev, List`next, q[k]
      ensures Linked() && List == q[k + 1..] && ran == old(ran) + [q[k]]
      ensures q[k].state == Fired && !q[k].hasCallback && q[k].scope == old(q[k].scope)
    {
      var g := head;
      UnlinkLocked(g, 0);
      assert Without(q[k..], 0) == q[k + 1..];
      g.state := Fired;
      g.hasCallback := false;
      ran := ran + [g];
    }

    /** The first caller empties the list, most recently armed guard first; later callers
        change nothing. */
    method Cancel()
      requires Valid()
      modifies this, List
      ensures Valid() && cancelled && List == []
      ensures ran == old(ran) + old(List)
      ensures forall g :: g in old(List) ==> g.state == Fired && !g.hasCallback
      ensures old(cancelled) ==> old(List) == []
    {
      if cancelled {
        assert ran + List == ran;
        return;
      }
      cancelled := true;
      ghost var q, k, before := List, 0, ran;
      while head != null
        invariant cancelled && Linked() && k <= |q| && List == q[k..] && ran == before + q[..k]
        invariant forall i :: 0 <= i < k ==> q[i].state == Fired && !q[i].hasCallback
        invariant forall i :: k <= i < |q| ==> q[i].hasCallback
        decreases |q| - k
      {
        FireHead(q, k);
        assert q[..k + 1] == q[..k] + [q[k]];
        k := k + 1;
      }
      assert q[..k] == q;
    }
  }
}
