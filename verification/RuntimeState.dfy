/** The runtime's shared structures as the source has them: the intrusive list of live
    roots with its counter, and the queue of handles with its stop flag. */
module RuntimeState {
  import CancelScope
  import GuardStates
  import opened Options
  import opened Queues

  class RootNode {
    var prev: RootNode?
    var next: RootNode?
    /** scope_raw_, set before the node is registered. */
    const scope: CancelScope.Scope?

    constructor (s: CancelScope.Scope?)
      ensures prev == null && next == null && scope == s
    {
      scope := s;
      prev, next := null, null;
    }
  }

  function PrevIn(q: seq<RootNode>, i: nat): RootNode?
    requires i <= |q|
  {
    if i == 0 then null else q[i - 1]
  }

  function NextIn(q: seq<RootNode>, i: nat): RootNode?
    requires i < |q|
  {
    if i == |q| - 1 then null else q[i + 1]
  }

  ghost predicate Links(q: seq<RootNode>)
    reads q
  {
    && Distinct(q)
    && (forall i {:trigger q[i].prev} :: 0 <= i < |q| ==> q[i].prev == PrevIn(q, i))
    && (forall i {:trigger q[i].next} :: 0 <= i < |q| ==> q[i].next == NextIn(q, i))
  }

  /** The neighbours of element k point past it. */
  ghost predicate Bypassed(q: seq<RootNode>, k: nat)
    requires k < |q|
    reads q
  {
    && (forall i {:trigger q[i].prev} :: 0 <= i < |q| && i != k ==>
          q[i].prev == if i == k + 1 then PrevIn(q, k) else PrevIn(q, i))
    && (forall i {:trigger q[i].next} :: 0 <= i < |q| && i != k ==>
          q[i].next == if i == k - 1 then NextIn(q, k) else NextIn(q, i))
  }

  lemma BypassedLinks(q: seq<RootNode>, k: nat)
    requires Distinct(q) && k < |q| && Bypassed(q, k)
    ensures Links(Without(q, k))
  {
    var r := Without(q, k);
    forall i | 0 <= i < |r|
      ensures r[i].prev == PrevIn(r, i) && r[i].next == NextIn(r, i)
    {
      assert r[i] == q[if i < k then i else i + 1];
    }
  }

  class Registry {
    var head: RootNode?
    var liveRoots: nat
    ghost var Roots: seq<RootNode>

    ghost predicate Valid()
      reads this, Roots
    {
      && head == (if Roots == [] then null else Roots[0])
      && liveRoots == |Roots|
      && Links(Roots)
    }

    constructor ()
      ensures Valid() && Roots == []
    {
      head, liveRoots, Roots := null, 0, [];
    }

    method Register(n: RootNode)
      requires Valid() && n !in Roots
      modifies this, n`prev, n`next, Roots`prev
      ensures Valid() && Roots == [n] + old(Roots) && liveRoots == old(liveRoots) + 1
    {
      n.next := head;
      n.prev := null;
      if head != null {
        head.prev := n;
      }
      head := n;
      liveRoots := liveRoots + 1;
      Roots := [n] + Roots;
    }

    /** Takes root k out; true when the waiters for an empty registry are notified. The
        node keeps its own links: its frame is destroyed next. */
    method Unregister(n: RootNode, ghost k: nat) returns (drained: bool)
      requires Valid() && k < |Roots| && Roots[k] == n
      modifies this, Roots`prev, Roots`next
      ensures Valid() && Roots == Without(old(Roots), k) && liveRoots == old(liveRoots) - 1
      ensures drained <==> Roots == []
      ensures n.prev == old(n.prev) && n.next == old(n.next)
    {
      ghost var q := Roots;
      if n.prev != null {
        n.prev.next := n.next;
      } else {
        head := n.next;
      }
      if n.next != null {
        n.next.prev := n.prev;
      }
      liveRoots := liveRoots - 1;
      BypassedLinks(q, k);
      Roots := Without(q, k);
      return liveRoots == 0;
    }

    ghost function Scopes(): set<CancelScope.Scope>
      reads this
    {
      set i | 0 <= i < |Roots| && Roots[i].scope != null :: Roots[i].scope
    }

    /** The walk has passed the first k roots. lists and before are the guards armed on each
        root's scope and the callbacks it had run when the walk began; all are all these
        guards. Each root has a scope of its own. */
    ghost predicate Passed(k: nat, lists: seq<seq<Guard>>, before: seq<seq<Guard>>, all: set<Guard>)
      reads this, Scopes(), all
    {
      && |lists| == |before| == |Roots|
      && (forall i, j :: 0 <= i < |Roots| && 0 <= j < |Roots| && i != j ==>
            Apart(lists[i], lists[j]) && (Roots[i].scope != null ==> Roots[i].scope != Roots[j].scope))
      && (forall i :: 0 <= i < |Roots| ==> (forall g :: g in lists[i] ==> g in all) && ScopeIs(Roots[i], i < k, lists[i], before[i]))
    }

    ghost function Guards(): set<Guard>
      reads this, Scopes()
    {
      set i, g | 0 <= i < |Roots| && g in GuardsOf(Roots[i]) :: g
    }

    /** Each root has a scope of its own, and none of these is being cancelled. */
    ghost predicate OwnScopes()
      reads this, Scopes(), Guards()
    {
      && (forall i, g :: 0 <= i < |Roots| && g in GuardsOf(Roots[i]) ==> g in Guards())
      && (forall i :: 0 <= i < |Roots| && Roots[i].scope != null ==> Roots[i].scope.Valid())
      && (forall i, j :: 0 <= i < |Roots| && 0 <= j < |Roots| && i != j && Roots[i].scope != null ==>
            Roots[i].scope != Roots[j].scope)
    }

    /** The destructor's walk: it cancels the scope of every listed root, which runs the
        callbacks of all guards armed on it, once each and newest first. */
    method CancelAll()
      requires Valid() && OwnScopes()
      modifies Scopes(), Guards()
      ensures Valid() && Roots == old(Roots)
      ensures forall i :: 0 <= i < |Roots| && Roots[i].scope != null ==>
        && Roots[i].scope.cancelled && Roots[i].scope.List == []
        && Roots[i].scope.ran == old(Roots[i].scope.ran) + old(Roots[i].scope.List)
        && forall g :: g in old(Roots[i].scope.List) ==> g.state == GuardStates.Fired
    {
      ghost var lists, before, all := GuardLists(Roots), RanLists(Roots), Guards();
      NonePassed();
      Walk(lists, before, all);
      assert forall i :: 0 <= i < |Roots| ==> ScopeIs(Roots[i], true, lists[i], before[i]);
    }

    lemma NonePassed()
      requires OwnScopes()
      ensures Passed(0, GuardLists(Roots), RanLists(Roots), Guards())
    {
      forall i, j | 0 <= i < |Roots| && 0 <= j < |Roots| && i != j
        ensures Apart(GuardsOf(Roots[i]), GuardsOf(Roots[j]))
      {
        OwnGuards(Roots[i], Roots[j]);
      }
    }

    method Walk(ghost lists: seq<seq<Guard>>, ghost before: seq<seq<Guard>>, ghost all: set<Guard>)
      requires Valid() && Passed(0, lists, before, all)
      modifies Scopes(), all
      ensures Valid() && Roots == old(Roots) && Passed(|Roots|, lists, before, all)
    {
      var n := head;
      ghost var k := 0;
      while n != null
        invariant Valid() && Roots == old(Roots)
        invariant k <= |Roots| && n == if k == |Roots| then null else Roots[k]
        invariant Passed(k, lists, before, all)
        decreases |Roots| - k
      {
        assert ScopeIs(Roots[k], false, lists[k], before[k]);
        CancelRoot(n, k, lists, before, all);
        assert n.next == NextIn(Roots, k);
        n := n.next;
        k := k + 1;
      }
    }

    method CancelRoot(n: RootNode, ghost k: nat, ghost lists: seq<seq<Guard>>, ghost before: seq<seq<Guard>>,
        ghost all: set<Guard>)
      requires Passed(k, lists, before, all) && k < |Roots| && n == Roots[k]
      requires n in Roots
      modifies n.scope, lists[k]
      ensures Passed(k + 1, lists, before, all)
    {
      assert ScopeIs(n, false, lists[k], before[k]);
      if n.scope != null {
        n.scope.Cancel();
      }
      forall i | 0 <= i < |Roots| && i != k
        ensures ScopeIs(Roots[i], i < k + 1, lists[i], before[i])
      {
        assert old(ScopeIs(Roots[i], i < k, lists[i], before[i]));
        assert Apart(lists[i], lists[k]);
      }
    }
  }

  type Guard = CancelScope.Guard

  /** The guards armed on a root's scope, and the callbacks it has run. */
  ghost function GuardsOf(n: RootNode): seq<Guard>
    reads n.scope
  {
    if n.scope == null then [] else n.scope.List
  }

  ghost function RanOf(n: RootNode): seq<Guard>
    reads n.scope
  {
    if n.scope == null then [] else n.scope.ran
  }

  ghost function GuardLists(roots: seq<RootNode>): (r: seq<seq<Guard>>)
    reads set n | n in roots :: n.scope
    ensures |r| == |roots| && forall i :: 0 <= i < |r| ==> r[i] == GuardsOf(roots[i])
  {
    if roots == [] then [] else GuardLists(roots[..|roots| - 1]) + [GuardsOf(roots[|roots| - 1])]
  }

  ghost function RanLists(roots: seq<RootNode>): (r: seq<seq<Guard>>)
    reads set n | n in roots :: n.scope
    ensures |r| == |roots| && forall i :: 0 <= i < |r| ==> r[i] == RanOf(roots[i])
  {
    if roots == [] then [] else RanLists(roots[..|roots| - 1]) + [RanOf(roots[|roots| - 1])]
  }

  /** A guard is armed on its own scope only. */
  lemma OwnGuards(m: RootNode, n: RootNode)
    requires m.scope != null ==> m.scope.Valid() && m.scope != n.scope
    requires n.scope != null ==> n.scope.Valid() && m.scope != n.scope
    ensures Apart(GuardsOf(m), GuardsOf(n))
  {
  }

  ghost predicate Apart(a: seq<Guard>, b: seq<Guard>) {
    forall g :: g in a ==> g !in b
  }

  /** The scope of root n, before its cancellation and after it. */
  ghost predicate ScopeIs(n: RootNode, done: bool, list: seq<Guard>, before: seq<Guard>)
    reads n.scope, list
  {
    n.scope != null ==>
      if done then
        n.scope.cancelled && n.scope.List == [] && n.scope.ran == before + list
        && forall g :: g in list ==> g.state == GuardStates.Fired
      else n.scope.List == list && n.scope.Valid() && n.scope.ran == before
  }

  class RunQueue<H> {
    var tasks: seq<H>
    var stopRequested: bool

    constructor ()
      ensures tasks == [] && !stopRequested
    {
      tasks, stopRequested := [], false;
    }

    method PutTask(h: H)
      modifies this`tasks
      ensures tasks == old(tasks) + [h]
    {
      tasks := tasks + [h];
    }

    /** A worker past its wait: the front of the queue if there is any, even after stop. */
    method GetNextTask() returns (h: Option<H>)
      requires tasks != [] || stopRequested
      modifies this`tasks
      ensures old(tasks) == [] ==> h == None && tasks == []
      ensures old(tasks) != [] ==> h == Some(old(tasks)[0]) && tasks == old(tasks)[1..]
    {
      if stopRequested && tasks == [] {
        return None;
      }
      h := Some(tasks[0]);
      tasks := tasks[1..];
    }

    method RequestStop()
      modifies this`stopRequested
      ensures stopRequested
    {
      stopRequested := true;
    }
  }
}
