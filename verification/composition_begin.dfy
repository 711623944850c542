/** Beginning an await keeps the invariant, whether it is ready, suspends, or is refused
    half way. */
module CompositionBegin {
  import opened Options
  import opened AwaitAlgebra
  import opened CompositionMachine
  import opened CompositionInvariant
  import opened CompositionSteps
  import K = KernelState

  // ----- new nodes -----

  /** A new node, of the await with root `n`, that no handler has looked at. */
  ghost predicate NewPart(r: World, n: nat, j: nat)
    requires j < |r.parts|
  {
    var x := r.parts[j];
    && x.root == n && x.error.None? && !x.place.Taken? && (x.parent.Some? ==> x.parent.value >= n)
    && (x.handler.Some? ==> x.handler == x.parent)
    && (x.place.InQueue? ==> !x.kind.Composed? && r.now <= x.time)
    && (x.kind.Composed? && !x.place.Idle? ==>
          x.kind.remaining == |Pending(r.parts, j)| <= x.kind.total == |Children(r.parts, j)|)
  }

  ghost predicate Grown(w: World, r: World) {
    && r.now == w.now && |w.parts| <= |r.parts| && |r.coros| == |w.coros| && |r.handles| == |w.handles|
    && |r.waits| == |w.waits|
    && (forall h | 0 <= h < |w.handles| :: r.handles[h].coro == w.handles[h].coro)
    && (forall j | 0 <= j < |w.parts| :: r.parts[j] == w.parts[j])
    && (forall j | |w.parts| <= j < |r.parts| :: NewPart(r, |w.parts|, j))
    && w.log <= r.log && (forall k | |w.log| <= k < |r.log| :: !r.log[k].Took? && !r.log[k].Woke?)
  }

  lemma GrownGroup(w: World, r: World, g: nat)
    requires Core(w) && Logs(w) && Grown(w, r) && g < |r.parts| && r.parts[g].kind.Composed?
    requires g < |w.parts| ==> w.parts[g].kind.Composed? && GroupOk(w, g)
    ensures GroupOk(r, g)
  {
    TookBelow(w);
    LastTakenSame(w.parts, r.parts, w.log, r.log, g);
    if g < |w.parts| {
      hide GroupOk, Core, Logs;
      forall c | |w.parts| <= c < |r.parts| ensures r.parts[c].parent != Some(g) && r.parts[c].handler != Some(g) {
        assert NewPart(r, |w.parts|, c);
      }
      GroupKept(w, r, g);
    } else {
      assert NewPart(r, |w.parts|, g);
      forall c | 0 <= c < |r.parts| ensures !Handled(r.parts[c], g) {
        if c < |w.parts| { assert PartWF(w, c); } else { assert NewPart(r, |w.parts|, c); }
      }
      LastIsHandled(r.parts, r.log, g);
    }
  }

  lemma GrownTimes(w: World, r: World)
    requires Times(w) && Core(w) && Grown(w, r) && (Orderly(r) ==> Orderly(w))
    ensures Times(r)
  {
    if Orderly(r) {
      forall j | 0 <= j < |r.parts| ensures TimeOk(r, j) {
        if j < |w.parts| {
          assert TimeOk(w, j);
          if c: nat :| w.parts[j].kind.Composed? && HasLeft(w.parts[j]) && Firing(w, j, c) {
            forall a | 0 <= a < |r.parts| && Handled(r.parts[a], j) ensures a < |w.parts| {
              assert a >= |w.parts| ==> NewPart(r, |w.parts|, a);
            }
            FiringKept(w, r, j, c);
          }
        } else {
          assert NewPart(r, |w.parts|, j);
        }
      }
    }
  }

  lemma GrownOk(w: World, r: World)
    requires Inv(w) && WF(r) && Grown(w, r)
    ensures Groups(r) && Times(r) && Logs(r)
  {
    assert Extends(w, r) by {
      forall j | |w.parts| <= j < |r.parts| ensures r.parts[j].root >= |w.parts| { assert NewPart(r, |w.parts|, j); }
    }
    hide NewPart, LogOk, GroupOk, TimeOk, Extends;
    if Orderly(r) { OrderlyBefore(w, r); }
    GrownTimes(w, r);
    LogsKept(w, r);
    forall k | |w.log| <= k < |r.log| ensures LogOk(r, k) { QuietLog(r, k); }
    forall g | 0 <= g < |r.parts| && r.parts[g].kind.Composed? ensures GroupOk(r, g) {
      assert g < |w.parts| ==> w.parts[g].kind.Composed? && GroupOk(w, g);
      GrownGroup(w, r, g);
    }
  }

  // ----- the loop of await_suspend -----

  /** A node that is about to be suspended on, or need not be. */
  predicate Undecided(w: World, n: nat, proc: Option<nat>, j: nat)
    requires WF(w) && j < |w.parts|
  {
    assert PartWF(w, j);
    var x := w.parts[j];
    && x.root == n && x.proc == proc
    && (x.place.Unreached? ==>
          && (x.parent.Some? ==> !w.parts[x.parent.value].place.Idle?)
          && (x.kind.Through? ==>
                assert HandleWF(w, w.handles[x.kind.h]);
                w.coros[w.handles[x.kind.h].coro].done.None?))
  }

  /** The nodes from `n` on, of which those below `i` have been dealt with. */
  ghost predicate Partly(w: World, n: nat, proc: Option<nat>, i: nat)
    requires WF(w)
  {
    && n <= i <= |w.parts|
    && (forall j | n <= j < |w.parts| :: Undecided(w, n, proc, j))
    && (forall j | n <= j < i :: !w.parts[j].place.Unreached?)
  }

  /** What suspending on a node does to it; the exception of a refused await may cost a
      composition its handler. */
  predicate Settled(w: World, x: Part, y: Part) {
    && y == x.(place := y.place, handler := y.handler, time := y.time)
    && (y.handler == x.handler || y.handler.None?)
    && ((y.place == x.place && y.time == x.time)
        || (x.place.Unreached? && if x.kind.Timed? then y.place.InQueue? && y.time == w.now + x.latency
                                  else y.place.Held? && y.time == x.time))
  }

  ghost predicate Suspends(w: World, r: World, n: nat, proc: Option<nat>) {
    && r.now == w.now && r.coros == w.coros && |r.parts| == |w.parts| && |r.handles| == |w.handles|
    && |r.waits| == |w.waits|
    && (forall h | 0 <= h < |w.handles| :: r.handles[h].coro == w.handles[h].coro)
    && (forall j | 0 <= j < n && j < |w.parts| :: r.parts[j] == w.parts[j])
    && (forall j | n <= j < |w.parts| :: Settled(w, w.parts[j], r.parts[j]))
    && w.log <= r.log && (forall k | |w.log| <= k < |r.log| :: r.log[k].Registered? || r.log[k] == Refused(proc))
    && (Whole(w, r, n) || Broken(w, r, proc))
  }

  /** Everything has been suspended on. */
  ghost predicate Whole(w: World, r: World, n: nat) {
    && r.waits == w.waits && |r.parts| == |w.parts|
    && forall j | n <= j < |w.parts| :: r.parts[j].handler == w.parts[j].handler && !r.parts[j].place.Unreached?
  }

  predicate Broken(w: World, r: World, proc: Option<nat>) {
    && Refused(proc) in r.log
    && r.waits == if proc.Some? && proc.value < |w.waits| then w.waits[proc.value := None] else w.waits
  }

  lemma {:induction false} AboveRoot(w: World, j: nat, g: nat)
    requires WF(w) && j < |w.parts| && Above(w.parts, j, g)
    ensures g < |w.parts| && w.parts[g].root == w.parts[j].root && g >= w.parts[g].root
    decreases j
  {
    assert PartWF(w, j);
    var p := w.parts[j].parent.value;
    assert PartWF(w, p);
    if p != g { AboveRoot(w, p, g); }
  }

  lemma RefuseCore(w: World, f: nat)
    requires Core(w) && f < |w.parts|
    ensures Core(Refuse(w, f))
  {
    var r := Refuse(w, f);
    RefuseWF(w, f);
    assert r.log == w.log + [Refused(w.parts[f].proc)];
    forall h | 0 <= h < |r.handles| ensures HandleOk(r, h) {
      assert HandleOk(w, h);
      HoldsMore(w.log, r.log[|w.log|], h);
    }
    forall j | 0 <= j < |r.parts| ensures PartWF(r, j) && PartOk(r, j) { assert PartWF(w, j) && PartOk(w, j); }
    forall c | 0 <= c < |r.coros| ensures CoroOk(r, c) { assert CoroOk(w, c); }
  }

  lemma RefuseSuspends(w: World, f: nat, n: nat, proc: Option<nat>)
    requires WF(w) && Partly(w, n, proc, f) && f < |w.parts|
    ensures Suspends(w, Refuse(w, f), n, proc)
  {
    var r := Refuse(w, f);
    assert Undecided(w, n, proc, f);
    forall j | 0 <= j < n && Above(w.parts, f, j) ensures false { AboveRoot(w, f, j); }
    assert r.log[|w.log|] == Refused(proc);
  }

  /** Node `i` may be suspended on now. */
  predicate CanSuspend(w: World, i: nat)
    requires WF(w) && i < |w.parts|
  {
    assert PartWF(w, i);
    var x := w.parts[i];
    && x.place.Unreached? && !IsAwaited(w, i)
    && (x.parent.Some? ==> Suspended(w.parts[x.parent.value]))
    && (x.kind.Through? ==>
          assert HandleWF(w, w.handles[x.kind.h]);
          w.coros[w.handles[x.kind.h].coro].done.None?)
  }

  lemma SuspendPart(w: World, i: nat, j: nat)
    requires WF(w) && i < |w.parts| && CanSuspend(w, i) && WF(Suspend(w, i))
    requires j < |w.parts| && PartWF(w, i) && PartWF(w, j) && PartOk(w, i) && PartOk(w, j)
    ensures j < |Suspend(w, i).parts| && PartWF(Suspend(w, i), j) && PartOk(Suspend(w, i), j)
  {
    var r := Suspend(w, i);
    assert PartWF(r, j);
    assert r.coros == w.coros && |r.handles| == |w.handles|;
    assert forall h | 0 <= h < |w.handles| :: r.handles[h].coro == w.handles[h].coro;
  }

  lemma SuspendCore(w: World, i: nat)
    requires Core(w) && i < |w.parts| && CanSuspend(w, i)
    ensures Core(Suspend(w, i))
  {
    var r := Suspend(w, i);
    SuspendWF(w, i);
    assert PartWF(w, i) && PartOk(w, i);
    forall h | 0 <= h < |r.handles| ensures HandleOk(r, h) {
      assert HandleOk(w, h);
      if w.parts[i].kind.Through? { HoldsMore(w.log, r.log[|w.log|], h); }
    }
    forall c | 0 <= c < |r.coros| ensures CoroOk(r, c) { assert CoroOk(w, c); }
    hide Suspend, CoroOk, HandleOk, PartOk;
    forall j | 0 <= j < |r.parts| ensures PartWF(r, j) && PartOk(r, j) {
      assert PartWF(w, j) && PartOk(w, j);
      SuspendPart(w, i, j);
    }
  }

  lemma SuspendPartly(w: World, n: nat, proc: Option<nat>, i: nat)
    requires WF(w) && i < |w.parts| && Partly(w, n, proc, i) && WF(Suspend(w, i))
    ensures Partly(Suspend(w, i), n, proc, i + 1)
  {
    var r := Suspend(w, i);
    forall j | n <= j < |r.parts| ensures Undecided(r, n, proc, j) {
      assert Undecided(w, n, proc, j) && PartWF(w, j);
      assert w.parts[j].kind.Through? ==> HandleWF(w, w.handles[w.parts[j].kind.h]);
    }
  }

  /** One node, and then the others. */
  lemma SuspendsMore(w: World, m: World, r: World, n: nat, proc: Option<nat>, i: nat)
    requires WF(w) && n <= i < |w.parts| && w.parts[i].place.Unreached? && m == Suspend(w, i)
    requires Suspends(m, r, n, proc)
    ensures Suspends(w, r, n, proc)
  {
    assert PartWF(w, i);
    forall j | n <= j < |w.parts| ensures Settled(w, w.parts[j], r.parts[j]) {
      assert Settled(m, m.parts[j], r.parts[j]);
    }
  }

  /** The node whose turn it is: those above it have been suspended on. */
  lemma TurnComes(w: World, n: nat, proc: Option<nat>, i: nat)
    requires Core(w) && Partly(w, n, proc, i) && i < |w.parts| && w.parts[i].place.Unreached? && !IsAwaited(w, i)
    ensures CanSuspend(w, i)
  {
    assert Undecided(w, n, proc, i) && PartWF(w, i);
    assert w.parts[i].kind.Through? ==> HandleWF(w, w.handles[w.parts[i].kind.h]);
    if w.parts[i].parent.Some? {
      var g := w.parts[i].parent.value;
      assert PartWF(w, g);
      assert g >= n && Undecided(w, n, proc, g);
    }
  }

  lemma {:induction false} SuspendFromOk(w: World, n: nat, proc: Option<nat>, i: nat)
    requires Core(w) && Partly(w, n, proc, i)
    ensures Core(SuspendFrom(w, i)) && Suspends(w, SuspendFrom(w, i), n, proc)
    decreases |w.parts| - i
  {
    if i < |w.parts| {
      if !w.parts[i].place.Unreached? {
        SuspendFromOk(w, n, proc, i + 1);
      } else if IsAwaited(w, i) {
        RefuseCore(w, i);
        RefuseSuspends(w, i, n, proc);
      } else {
        TurnComes(w, n, proc, i);
        SuspendCore(w, i);
        SuspendWF(w, i);
        SuspendPartly(w, n, proc, i);
        hide Core, Partly, CanSuspend, Suspends, Suspend, Refuse;
        SuspendFromOk(Suspend(w, i), n, proc, i + 1);
        SuspendsMore(w, Suspend(w, i), SuspendFrom(w, i), n, proc, i);
      }
    }
  }

  // ----- a process awaits -----

  lemma PlantCore(w: World, nodes: seq<Node>, p: nat)
    requires Core(w) && Knows(w, nodes) && IsTree(nodes) && p < |w.waits|
    ensures Core(Plant(w, nodes, p))
  {
    PlantWF(w, nodes, p);
    var r := Plant(w, nodes, p);
    forall h | 0 <= h < |r.handles| ensures HandleOk(r, h) { assert HandleOk(w, h); }
    forall j | 0 <= j < |r.parts| ensures PartWF(r, j) && PartOk(r, j) {
      if j < |w.parts| {
        assert PartWF(w, j) && PartOk(w, j);
        assert w.parts[j].kind.Through? ==> HandleWF(w, w.handles[w.parts[j].kind.h]);
      }
    }
    forall c | 0 <= c < |r.coros| ensures CoroOk(r, c) { assert CoroOk(w, c); }
  }

  lemma PlantPartly(w: World, nodes: seq<Node>, p: nat)
    requires WF(w) && Knows(w, nodes) && IsTree(nodes) && p < |w.waits| && WF(Plant(w, nodes, p))
    ensures Partly(Plant(w, nodes, p), |w.parts|, Some(p), |w.parts|)
  {
    var r, n := Plant(w, nodes, p), |w.parts|;
    forall j | n <= j < |r.parts| ensures Undecided(r, n, Some(p), j) {
      var i := j - n;
      assert PartWF(r, j) && r.parts[j] == Made(w, nodes, p, i);
      if i > 0 { assert IsChild(nodes, i); }
      if nodes[i].what.Await? { assert HandleWF(w, w.handles[nodes[i].what.h]); }
    }
  }

  lemma {:induction false} SubsetSize(a: set<nat>, b: set<nat>)
    requires a <= b
    ensures |a| <= |b|
  {
    if a != {} {
      var x :| x in a;
      SubsetSize(a - {x}, b - {x});
    }
  }

  /** The nodes of the await are those that were made, some of them suspended on. */
  ghost predicate Begun(w: World, nodes: seq<Node>, p: nat, r: World)
    requires WF(w) && Knows(w, nodes)
  {
    && |r.parts| == |w.parts| + |nodes| && r.now == w.now
    && (forall j | 0 <= j < |w.parts| :: r.parts[j] == w.parts[j])
    && (forall i | 0 <= i < |nodes| :: Settled(w, Made(w, nodes, p, i), r.parts[|w.parts| + i]))
  }

  lemma {:induction false} KidIs(w: World, nodes: seq<Node>, p: nat, r: World, g: nat, c: nat)
    requires WF(w) && Knows(w, nodes) && IsTree(nodes) && p < |w.waits| && g < |nodes| && nodes[g].what.Group?
    requires Wanted(w, nodes, g) && Begun(w, nodes, p, r) && |w.parts| <= c < |r.parts|
    ensures r.parts[c].parent == Some(|w.parts| + g) <==> IsKid(w, nodes, c, g)
    ensures IsPending(r.parts[c], |w.parts| + g) <==> IsKid(w, nodes, c, g) && !Ready(w, nodes, c - |w.parts|)
  {
    var n := |w.parts|;
    assert Settled(w, Made(w, nodes, p, c - n), r.parts[n + (c - n)]);
    assert c > n ==> IsChild(nodes, c - n);
  }

  /** The counter of a new handler is the number of children that are not ready. */
  lemma {:induction false} PlantCounts(w: World, nodes: seq<Node>, p: nat, r: World, g: nat)
    requires WF(w) && Knows(w, nodes) && IsTree(nodes) && p < |w.waits| && g < |nodes| && nodes[g].what.Group?
    requires Wanted(w, nodes, g) && Begun(w, nodes, p, r)
    ensures var n, k := |w.parts|, KindOf(w, nodes, g);
      k.Composed? && k.remaining == |Pending(r.parts, n + g)| <= k.total == |Children(r.parts, n + g)|
  {
    var n := |w.parts|;
    forall c | 0 <= c < n ensures r.parts[c].parent != Some(n + g) { assert PartWF(w, c); }
    forall c | n <= c < |r.parts|
      ensures r.parts[c].parent == Some(n + g) <==> IsKid(w, nodes, c, g)
      ensures IsPending(r.parts[c], n + g) <==> IsKid(w, nodes, c, g) && !Ready(w, nodes, c - n)
    {
      KidIs(w, nodes, p, r, g, c);
    }
    assert Children(r.parts, n + g) == Kids(w, nodes, g);
    assert Pending(r.parts, n + g) == Waiting(w, nodes, g);
    SubsetSize(Waiting(w, nodes, g), Kids(w, nodes, g));
  }

  lemma BeginPart(w: World, nodes: seq<Node>, p: nat, r: World, j: nat)
    requires WF(w) && Knows(w, nodes) && IsTree(nodes) && p < |w.waits| && |w.parts| <= j < |r.parts|
    requires Begun(w, nodes, p, r)
    ensures NewPart(r, |w.parts|, j)
  {
    var n := |w.parts|;
    assert Settled(w, Made(w, nodes, p, j - n), r.parts[n + (j - n)]);
    if r.parts[j].kind.Composed? && !r.parts[j].place.Idle? {
      PlantCounts(w, nodes, p, r, j - n);
    }
    hide Pending, Children;
  }

  lemma {:induction false} PlantMade(w: World, nodes: seq<Node>, p: nat, i: nat)
    requires WF(w) && Knows(w, nodes) && i < |nodes|
    ensures |Plant(w, nodes, p).parts| == |w.parts| + |nodes|
    ensures Plant(w, nodes, p).parts[|w.parts| + i] == Made(w, nodes, p, i)
  {
    hide Made, BindAll;
  }

  /** `m` is the world before the nodes are suspended on. */
  lemma SuspendsBegun(w: World, nodes: seq<Node>, p: nat, m: World, r: World)
    requires WF(w) && Knows(w, nodes) && |m.parts| == |w.parts| + |nodes| && m.now == w.now
    requires forall j | 0 <= j < |w.parts| :: m.parts[j] == w.parts[j]
    requires forall i | 0 <= i < |nodes| :: m.parts[|w.parts| + i] == Made(w, nodes, p, i)
    requires Suspends(m, r, |w.parts|, Some(p))
    ensures Begun(w, nodes, p, r)
  {
    hide WF, Knows, Made;
    var n := |w.parts|;
    forall i | 0 <= i < |nodes| ensures Settled(w, Made(w, nodes, p, i), r.parts[n + i]) {
      assert m.parts[n + i] == Made(w, nodes, p, i);
      assert Settled(m, m.parts[n + i], r.parts[n + i]);
    }
  }

  lemma BeginGrown(w: World, nodes: seq<Node>, p: nat, r: World)
    requires WF(w) && Knows(w, nodes) && IsTree(nodes) && p < |w.waits| == |r.waits| && Begun(w, nodes, p, r)
    requires |r.coros| == |w.coros| && |r.handles| == |w.handles|
    requires forall h | 0 <= h < |w.handles| :: r.handles[h].coro == w.handles[h].coro
    requires w.log <= r.log && (forall k | |w.log| <= k < |r.log| :: !r.log[k].Took? && !r.log[k].Woke?)
    ensures Grown(w, r)
  {
    forall j | |w.parts| <= j < |r.parts| ensures NewPart(r, |w.parts|, j) {
      BeginPart(w, nodes, p, r, j);
    }
    hide NewPart;
  }

  /** A process that is not concerned. */
  lemma OtherWay(w: World, r: World, p: nat, q: nat)
    requires Grown(w, r) && q < |w.waits| && WayOk(w, q) && q != p && r.waits[q] == w.waits[q]
    requires forall j | |w.parts| <= j < |r.parts| :: r.parts[j].proc == Some(p)
    requires Refused(Some(q)) in w.log ==> Refused(Some(q)) in r.log
    ensures WayOk(r, q)
  {
    hide NewPart;
    forall j: nat ensures Waker(r, j, q) <==> Waker(w, j, q) {}
    forall j | 0 <= j < |r.parts| && Refused(Some(q)) !in w.log ensures Linked(r.parts[j], q) {
      assert j < |w.parts| ==> Linked(w.parts[j], q);
    }
  }

  lemma {:induction false} ReadyWay(w: World, nodes: seq<Node>, p: nat, q: nat)
    requires WF(w) && Knows(w, nodes) && IsTree(nodes) && p < |w.waits| && Ready(w, nodes, 0)
    requires q < |w.waits| && WayOk(w, q)
    ensures WayOk(Plant(w, nodes, p), q)
  {
    var m, n := Plant(w, nodes, p), |w.parts|;
    forall j | n <= j < |m.parts| ensures m.parts[j].place.Idle? && Linked(m.parts[j], q) {
      assert m.parts[j] == Made(w, nodes, p, j - n);
      NoneWanted(w, nodes, j - n);
    }
    hide Made;
    forall j: nat ensures Waker(m, j, q) <==> Waker(w, j, q) {}
    forall j | 0 <= j < |m.parts| && Refused(Some(q)) !in w.log ensures Linked(m.parts[j], q) {
      assert j < n ==> Linked(w.parts[j], q);
    }
  }

  lemma PlantGrown(w: World, nodes: seq<Node>, p: nat)
    requires WF(w) && Knows(w, nodes) && IsTree(nodes) && p < |w.waits|
    ensures Grown(w, Plant(w, nodes, p))
  {
    var m, n := Plant(w, nodes, p), |w.parts|;
    assert forall i | 0 <= i < |nodes| :: m.parts[n + i] == Made(w, nodes, p, i);
    BeginGrown(w, nodes, p, m);
  }

  lemma {:induction false} BeginReady(w: World, nodes: seq<Node>, p: nat)
    requires Inv(w) && Knows(w, nodes) && IsTree(nodes) && p < |w.waits| && w.waits[p].None? && Ready(w, nodes, 0)
    ensures Inv(Begin(w, p, nodes))
  {
    var m, n := Plant(w, nodes, p), |w.parts|;
    PlantCore(w, nodes, p);
    PlantGrown(w, nodes, p);
    GrownOk(w, m);
    hide Core, Groups, Times, Logs, Grown, WayOk, Plant;
    assert m.waits == w.waits && |m.parts| == n + |nodes| by { PlantShape(w, nodes, p); }
    forall q | 0 <= q < |w.waits| ensures WayOk(m, q) { ReadyWay(w, nodes, p, q); }
    assert m.waits[p := None] == m.waits;
    assert m.(waits := m.waits[p := None]) == m;
    ResumeOk(m, p, n);
  }

  lemma PlantShape(w: World, nodes: seq<Node>, p: nat)
    requires WF(w) && Knows(w, nodes)
    ensures Plant(w, nodes, p).waits == w.waits && |Plant(w, nodes, p).parts| == |w.parts| + |nodes|
  {
  }

  /** If the root is ready then nothing is suspended on. */
  lemma {:induction false} NoneWanted(w: World, nodes: seq<Node>, i: nat)
    requires WF(w) && Knows(w, nodes) && IsTree(nodes) && Ready(w, nodes, 0) && i < |nodes|
    ensures !Wanted(w, nodes, i)
    decreases i
  {
    if i > 0 {
      assert IsChild(nodes, i);
      NoneWanted(w, nodes, nodes[i].parent.value);
    }
  }

  lemma WaitCore(w: World, p: nat, n: nat, proc: Option<nat>)
    requires Core(w) && p < |w.waits| && n <= |w.parts| && Partly(w, n, proc, n)
    ensures Core(WaitFor(w, p, n)) && Partly(WaitFor(w, p, n), n, proc, n)
  {
    var r := WaitFor(w, p, n);
    WaitWF(w, p, n);
    forall h | 0 <= h < |r.handles| ensures HandleOk(r, h) { assert HandleOk(w, h); }
    forall j | 0 <= j < |r.parts| ensures PartWF(r, j) && PartOk(r, j) { assert PartWF(w, j) && PartOk(w, j); }
    forall c | 0 <= c < |r.coros| ensures CoroOk(r, c) { assert CoroOk(w, c); }
    forall j | n <= j < |r.parts| ensures Undecided(r, n, proc, j) { assert Undecided(w, n, proc, j); }
  }

  lemma {:induction false} BeginSuspends(w: World, nodes: seq<Node>, p: nat)
    requires Inv(w) && Knows(w, nodes) && IsTree(nodes) && p < |w.waits| && w.waits[p].None? && !Ready(w, nodes, 0)
    ensures Inv(Begin(w, p, nodes))
  {
    var m, n := Plant(w, nodes, p), |w.parts|;
    PlantCore(w, nodes, p);
    PlantPartly(w, nodes, p);
    WaitCore(m, p, n, Some(p));
    var m', r := WaitFor(m, p, n), Begin(w, p, nodes);
    SuspendFromOk(m', n, Some(p), n);
    forall i | 0 <= i < |nodes| ensures m'.parts[n + i] == Made(w, nodes, p, i) { PlantMade(w, nodes, p, i); }
    SuspendsBegun(w, nodes, p, m', r);
    BeginGrown(w, nodes, p, r);
    GrownOk(w, r);
    hide Core, Groups, Times, Logs, Suspends, Ways;
    BeginWays(w, nodes, p, r);
  }

  lemma BegunParts(w: World, nodes: seq<Node>, p: nat, r: World)
    requires WF(w) && Knows(w, nodes) && IsTree(nodes) && Begun(w, nodes, p, r)
    ensures forall j | |w.parts| <= j < |r.parts| :: r.parts[j].proc == Some(p)
  {
    forall j | |w.parts| <= j < |r.parts| ensures r.parts[j].proc == Some(p) {
      assert Settled(w, Made(w, nodes, p, j - |w.parts|), r.parts[|w.parts| + (j - |w.parts|)]);
    }
  }

  /** If nothing was refused then only the root will resume the process. */
  lemma {:induction false} BeginWays(w: World, nodes: seq<Node>, p: nat, r: World)
    requires WF(w) && Ways(w) && Knows(w, nodes) && IsTree(nodes) && p < |w.waits| && w.waits[p].None?
    requires WF(Plant(w, nodes, p)) && Grown(w, r) && !Ready(w, nodes, 0) && Begun(w, nodes, p, r)
    requires Suspends(WaitFor(Plant(w, nodes, p), p, |w.parts|), r, |w.parts|, Some(p))
    ensures Ways(r)
  {
    var m, n := WaitFor(Plant(w, nodes, p), p, |w.parts|), |w.parts|;
    PlantShape(w, nodes, p);
    BegunParts(w, nodes, p, r);
    assert m.waits == w.waits[p := Some(n)] && (Whole(m, r, n) || Broken(m, r, Some(p)));
    forall i | 0 <= i < |nodes| ensures m.parts[n + i] == Made(w, nodes, p, i) { PlantMade(w, nodes, p, i); }
    assert forall q: nat | Refused(Some(q)) in w.log :: Refused(Some(q)) in r.log;
    hide Begun, Plant, Suspends, Whole, Grown, WayOk;
    forall q | 0 <= q < |r.waits| ensures WayOk(r, q) {
      assert WayOk(w, q);
      if q != p {
        OtherWay(w, r, p, q);
      } else if Refused(Some(p)) in r.log {
        RefusedWay(r, p);
      } else {
        BeginWhole(w, nodes, p, m, r);
      }
    }
  }

  lemma RefusedWay(w: World, p: nat)
    requires p < |w.waits| && Refused(Some(p)) in w.log
    ensures WayOk(w, p)
  {
  }

  lemma {:induction false} MadeIs(w: World, nodes: seq<Node>, p: nat, i: nat)
    requires WF(w) && Knows(w, nodes) && IsTree(nodes) && i < |nodes|
    ensures var x := Made(w, nodes, p, i);
      && x.proc == Some(p) && x.handler == x.parent && (x.parent.None? <==> i == 0)
      && (i == 0 && !Ready(w, nodes, 0) ==> x.place.Unreached?)
  {
    if i > 0 { assert IsChild(nodes, i); }
    hide Ready, KindOf, LatencyOf;
  }

  /** If nothing was refused then of the new nodes only the root will resume the process. */
  lemma WholePart(w: World, x: Part, m: World, r: World, p: nat, n: nat, j: nat)
    requires n <= j < |r.parts| && Whole(m, r, n) && m.parts[j] == x && Settled(w, x, r.parts[j])
    requires x.proc == Some(p) && x.handler == x.parent && (x.parent.None? <==> j == n)
    requires j == n ==> x.place.Unreached?
    ensures Linked(r.parts[j], p) && (Waker(r, j, p) <==> j == n)
  {
  }

  lemma RootWay(w: World, r: World, p: nat)
    requires p < |w.waits| == |r.waits| && w.waits[p].None? && WayOk(w, p) && Refused(Some(p)) !in w.log
    requires |w.parts| < |r.parts| && r.waits[p] == Some(|w.parts|)
    requires forall j | 0 <= j < |w.parts| :: r.parts[j] == w.parts[j]
    requires forall j | |w.parts| <= j < |r.parts| :: Linked(r.parts[j], p) && (Waker(r, j, p) <==> j == |w.parts|)
    ensures WayOk(r, p)
  {
    var n := |w.parts|;
    forall j | 0 <= j < |r.parts| ensures Linked(r.parts[j], p) { assert j < n ==> Linked(w.parts[j], p); }
    forall j: nat ensures Waker(r, j, p) <==> r.waits[p] == Some(j) {
      assert j < n ==> (Waker(r, j, p) <==> Waker(w, j, p));
    }
  }

  /** `m` is the world before the nodes are suspended on. */
  lemma {:induction false} BeginWhole(w: World, nodes: seq<Node>, p: nat, m: World, r: World)
    requires WF(w) && Knows(w, nodes) && IsTree(nodes) && !Ready(w, nodes, 0) && Begun(w, nodes, p, r)
    requires p < |w.waits| == |r.waits| && w.waits[p].None? && WayOk(w, p) && Refused(Some(p)) !in w.log
    requires Whole(m, r, |w.parts|) && m.waits == w.waits[p := Some(|w.parts|)]
    requires |m.parts| == |w.parts| + |nodes|
    requires forall i | 0 <= i < |nodes| :: m.parts[|w.parts| + i] == Made(w, nodes, p, i)
    ensures WayOk(r, p)
  {
    hide Ready, Whole, Made, Settled, WF, Knows, WayOk;
    var n := |w.parts|;
    forall j | n <= j < |r.parts| ensures Linked(r.parts[j], p) && (Waker(r, j, p) <==> j == n) {
      var i := j - n;
      MadeIs(w, nodes, p, i);
      assert Settled(w, Made(w, nodes, p, i), r.parts[n + i]);
      assert m.parts[n + i] == Made(w, nodes, p, i);
      WholePart(w, Made(w, nodes, p, i), m, r, p, n, j);
    }
    assert r.waits == m.waits by { WholeWaits(m, r, n); }
    RootWay(w, r, p);
  }

  lemma WholeWaits(m: World, r: World, n: nat)
    requires Whole(m, r, n)
    ensures r.waits == m.waits
  {
  }

  lemma BeginOk(w: World, p: nat, nodes: seq<Node>)
    requires Inv(w) && Enabled(w, Begins(p, nodes))
    ensures Inv(Begin(w, p, nodes))
  {
    hide Inv;
    if Ready(w, nodes, 0) { BeginReady(w, nodes, p); } else { BeginSuspends(w, nodes, p); }
  }

  // ----- nobody awaits -----

  lemma BareCore(w: World, h: nat)
    requires Core(w) && h < |w.handles|
    requires HandleWF(w, w.handles[h]) && w.coros[w.handles[h].coro].done.None?
    ensures Core(BareWorld(w, h)) && Partly(BareWorld(w, h), |w.parts|, None, |w.parts|)
  {
    BareWF(w, h);
    var r, n := BareWorld(w, h), |w.parts|;
    forall g | 0 <= g < |r.handles| ensures HandleOk(r, g) { assert HandleOk(w, g); }
    forall j | 0 <= j < |r.parts| ensures PartWF(r, j) && PartOk(r, j) {
      assert j < n ==> PartWF(w, j) && PartOk(w, j);
    }
    forall c | 0 <= c < |r.coros| ensures CoroOk(r, c) { assert CoroOk(w, c); }
    assert Undecided(r, n, None, n);
  }

  /** Nobody waits for a bare token. */
  lemma BareWay(w: World, r: World, p: nat)
    requires Grown(w, r) && p < |w.waits| && WayOk(w, p) && r.waits[p] == w.waits[p]
    requires forall j | |w.parts| <= j < |r.parts| :: r.parts[j].proc.None?
    requires Refused(Some(p)) in w.log ==> Refused(Some(p)) in r.log
    ensures WayOk(r, p)
  {
    hide NewPart;
    forall j: nat ensures Waker(r, j, p) <==> Waker(w, j, p) {}
    forall j | 0 <= j < |r.parts| && Refused(Some(p)) !in w.log ensures Linked(r.parts[j], p) {
      assert j < |w.parts| ==> Linked(w.parts[j], p);
    }
  }

  lemma LaunchGrown(w: World, h: nat)
    requires Core(w) && h < |w.handles|
    requires HandleWF(w, w.handles[h]) && w.coros[w.handles[h].coro].done.None?
    ensures var r := Launch(w, h);
      Core(r) && Grown(w, r) && r.waits == w.waits && forall j | |w.parts| <= j < |r.parts| :: r.parts[j].proc.None?
  {
    var m, n, r := BareWorld(w, h), |w.parts|, Launch(w, h);
    BareCore(w, h);
    SuspendFromOk(m, n, None, n);
    assert Settled(m, m.parts[n], r.parts[n]);
    hide Core;
  }

  lemma LaunchOk(w: World, h: nat)
    requires Inv(w) && h < |w.handles|
    ensures Inv(Launch(w, h))
  {
    assert HandleWF(w, w.handles[h]);
    if w.coros[w.handles[h].coro].done.None? {
      var r := Launch(w, h);
      LaunchGrown(w, h);
      GrownOk(w, r);
      hide Core, Groups, Times, Logs, Launch, Grown, WayOk;
      assert w.log <= r.log by { GrownLog(w, r); }
      forall p | 0 <= p < |r.waits| ensures WayOk(r, p) { BareWay(w, r, p); }
    }
  }

  lemma GrownLog(w: World, r: World)
    requires Grown(w, r)
    ensures w.log <= r.log && |w.parts| <= |r.parts|
  {
    hide NewPart;
  }

  lemma AsyncOk(w: World, h: nat)
    requires Inv(w) && h < |w.handles|
    ensures Inv(Async(w, h))
  {
    LaunchOk(w, h);
    assert HandleWF(w, w.handles[h]);
    hide Inv;
    if !(w.coros[w.handles[h].coro].done.None? && w.handles[h].token.Some?) { VisitOk(Launch(w, h), h); }
  }

  // ----- runs -----

  lemma DoOk(w: World, a: Action)
    requires Inv(w) && Enabled(w, a)
    ensures Inv(Do(w, a))
  {
    hide Inv;
    match a
    case Ticks(t) => TickOk(w, t);
    case Begins(p, nodes) => BeginOk(w, p, nodes);
    case Launches(h) => LaunchOk(w, h);
    case Asyncs(h) => AsyncOk(w, h);
    case Ends(c, o) => EndOk(w, c, o);
    case Wakes(e) => SignalledOk(w, e);
    case Takes(i) => TakeOk(w, i);
  }

  lemma StartOk(w: World)
    requires Start(w)
    ensures Inv(w)
  {
  }

  lemma {:induction false} RunsOk(w: World, acts: seq<Action>, w': World)
    requires Inv(w) && Runs(w, acts, w')
    ensures Inv(w')
    decreases |acts|
  {
    hide Inv;
    if acts != [] {
      DoOk(w, acts[0]);
      RunsOk(Do(w, acts[0]), acts[1..], w');
    }
  }

  lemma ReachedOk(w: World)
    requires Reached(w)
    ensures Inv(w)
  {
    hide Inv;
    var w0, acts :| Start(w0) && Runs(w0, acts, w);
    StartOk(w0);
    RunsOk(w0, acts, w);
  }
}
