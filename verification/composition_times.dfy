/** When the tokens of an await are due, told from when it was begun, when events were woken
    and when coroutines ended; and how far suspending gets. */
module CompositionTimes {
  import opened Options
  import opened AwaitAlgebra
  import opened CompositionMachine
  import opened CompositionInvariant
  import opened CompositionSteps
  import opened CompositionBegin

  // ----- executions -----

  ghost predicate Happens(run: seq<World>, acts: seq<Action>, i: nat)
    requires i < |acts| < |run|
  {
    Enabled(run[i], acts[i]) && run[i + 1] == Do(run[i], acts[i])
  }

  ghost predicate Execution(run: seq<World>, acts: seq<Action>) {
    && |run| == |acts| + 1 && Start(run[0])
    && forall i | 0 <= i < |acts| :: Happens(run, acts, i)
  }

  lemma {:induction false} ExecutionOk(run: seq<World>, acts: seq<Action>, i: nat)
    requires Execution(run, acts) && i < |run|
    ensures Inv(run[i])
  {
    hide Inv;
    if i == 0 {
      StartOk(run[0]);
    } else {
      ExecutionOk(run, acts, i - 1);
      assert Happens(run, acts, i - 1);
      DoOk(run[i - 1], acts[i - 1]);
    }
  }

  lemma {:induction false} ExecutionRuns(run: seq<World>, acts: seq<Action>, i: nat, j: nat)
    requires Execution(run, acts) && i <= j < |run|
    ensures Runs(run[i], acts[i..j], run[j])
    decreases j - i
  {
    hide Do, Enabled;
    if i < j {
      assert Happens(run, acts, i);
      ExecutionRuns(run, acts, i + 1, j);
      assert acts[i..j][0] == acts[i] && acts[i..j][1..] == acts[i + 1..j];
    }
  }

  lemma ExecutionReaches(run: seq<World>, acts: seq<Action>, i: nat)
    requires Execution(run, acts) && i < |run|
    ensures Reached(run[i])
  {
    hide Start, Runs;
    ExecutionRuns(run, acts, 0, i);
  }

  // ----- what a step does to a token that is there -----

  /** The action that the token of a leaf waits for: a wake of its event, or the end of its
      coroutine. */
  predicate Triggers(w: World, a: Action, x: Part) {
    match x.kind
    case Signal(e) => a == Wakes(e)
    case Through(h) => a.Ends? && h < |w.handles| && a.c == w.handles[h].coro
    case _ => false
  }

  /** A held token that is triggered is queued for now plus its latency; a queued one may be
      taken; nothing else happens to a leaf. */
  ghost predicate LeafStep(w: World, a: Action, i: nat, x: Part, y: Part) {
    y == if x.place.Held? && Triggers(w, a, x)
         then x.(place := InQueue, time := w.now + x.latency, error := if a.Ends? then ErrorOf(a.o) else None)
         else if x.place.InQueue? && a == Takes(i) then x.(place := Taken)
         else x
  }

  lemma BeginOld(w: World, p: nat, nodes: seq<Node>)
    requires Inv(w) && Enabled(w, Begins(p, nodes))
    ensures Old(w, Begin(w, p, nodes))
  {
    PlantCore(w, nodes, p);
    if !Ready(w, nodes, 0) {
      var m := Plant(w, nodes, p);
      PlantPartly(w, nodes, p);
      WaitCore(m, p, |w.parts|, Some(p));
      SuspendFromOk(WaitFor(m, p, |w.parts|), |w.parts|, Some(p), |w.parts|);
    }
  }

  /** The parts that were there are still the same. */
  ghost predicate Old(w: World, r: World) {
    |w.parts| <= |r.parts| && forall j | 0 <= j < |w.parts| :: r.parts[j] == w.parts[j]
  }

  lemma LaunchOld(w: World, h: nat)
    requires Inv(w) && h < |w.handles|
    ensures Old(w, Launch(w, h))
  {
    assert HandleWF(w, w.handles[h]);
    if w.coros[w.handles[h].coro].done.None? {
      LaunchGrown(w, h);
      hide NewPart;
    }
  }

  lemma StepLeaf(w: World, a: Action, i: nat)
    requires Inv(w) && Enabled(w, a) && i < |w.parts| && !w.parts[i].kind.Composed?
    ensures i < |Do(w, a).parts| && LeafStep(w, a, i, w.parts[i], Do(w, a).parts[i])
  {
    assert PartWF(w, i) && PartOk(w, i);
    match a
    case Ticks(_) =>
    case Begins(p, nodes) => BeginOld(w, p, nodes);
    case Launches(h) => LaunchOld(w, h);
    case Asyncs(h) => LaunchOld(w, h);
    case Ends(c, o) =>
    case Wakes(e) =>
    case Takes(t) => TakeLeaf(w, t, i);
  }

  lemma TakeLeaf(w: World, t: nat, i: nat)
    requires Inv(w) && Enabled(w, Takes(t)) && i < |w.parts| && !w.parts[i].kind.Composed?
    ensures i < |Take(w, t).parts|
    ensures Take(w, t).parts[i] == if i == t then w.parts[i].(place := Taken) else w.parts[i]
  {
    PopShape(w, t);
    var x := w.parts[t];
    assert x.handler.Some? ==> w.parts[x.handler.value].kind.Composed?;
    hide Pop, Inv;
    assert Take(w, t).parts == Pop(w, t).parts;
  }

  // ----- leaves that wait -----

  lemma SameHandles(run: seq<World>, acts: seq<Action>, i: nat)
    requires Execution(run, acts) && i < |acts|
    ensures |run[i + 1].handles| == |run[i].handles|
    ensures forall h | 0 <= h < |run[i].handles| ::
      run[i + 1].handles[h].coro == run[i].handles[h].coro && run[i + 1].handles[h].latency == run[i].handles[h].latency
  {
    ExecutionOk(run, acts, i);
    assert Happens(run, acts, i);
    DoHandles(run[i], acts[i]);
  }

  predicate SameObject(x: Handle, y: Handle) {
    y.coro == x.coro && y.latency == x.latency
  }

  lemma {:induction false} SuspendHandles(w: World, i: nat)
    requires WF(w)
    ensures |SuspendFrom(w, i).handles| == |w.handles|
    ensures forall h | 0 <= h < |w.handles| :: SameObject(w.handles[h], SuspendFrom(w, i).handles[h])
    decreases |w.parts| - i
  {
    if i < |w.parts| {
      if !w.parts[i].place.Unreached? {
        SuspendHandles(w, i + 1);
      } else if !IsAwaited(w, i) {
        SuspendWF(w, i);
        assert PartWF(w, i);
        SuspendHandles(Suspend(w, i), i + 1);
      }
    }
  }

  lemma VisitHandles(w: World, p: nat, r: nat)
    requires WF(w) && p < |w.waits|
    ensures |Resume(w, p, r).handles| == |w.handles|
    ensures forall h | 0 <= h < |w.handles| :: SameObject(w.handles[h], Resume(w, p, r).handles[h])
  {
    HandlesKnown(w);
    VisitSpec(w.parts, w.handles, r, 0);
  }

  lemma LaunchHandles(w: World, h: nat)
    requires WF(w) && h < |w.handles|
    ensures forall g | 0 <= g < |w.handles| :: SameObject(w.handles[g], Launch(w, h).handles[g])
  {
    assert HandleWF(w, w.handles[h]);
    BareWF(w, h);
    if w.coros[w.handles[h].coro].done.None? { SuspendHandles(BareWorld(w, h), |w.parts|); }
  }

  lemma BeginHandles(w: World, p: nat, nodes: seq<Node>)
    requires WF(w) && Knows(w, nodes) && IsTree(nodes) && p < |w.waits|
    ensures |Begin(w, p, nodes).handles| == |w.handles|
    ensures forall h | 0 <= h < |w.handles| :: SameObject(w.handles[h], Begin(w, p, nodes).handles[h])
  {
    PlantWF(w, nodes, p);
    var m := Plant(w, nodes, p);
    if Ready(w, nodes, 0) {
      VisitHandles(m, p, |w.parts|);
    } else {
      WaitWF(m, p, |w.parts|);
      SuspendHandles(WaitFor(m, p, |w.parts|), |w.parts|);
    }
  }

  lemma DoHandles(w: World, a: Action)
    requires Inv(w) && Enabled(w, a)
    ensures |Do(w, a).handles| == |w.handles|
    ensures forall h | 0 <= h < |w.handles| :: SameObject(w.handles[h], Do(w, a).handles[h])
  {
    hide Inv;
    match a
    case Ticks(_) =>
    case Begins(p, nodes) => BeginHandles(w, p, nodes);
    case Launches(h) => LaunchHandles(w, h);
    case Asyncs(h) => LaunchHandles(w, h);
    case Ends(c, o) =>
    case Wakes(e) =>
    case Takes(i) =>
      PopWF(w, i);
      var p := Resumed(w.parts[i]);
      if p.Some? && w.waits[p.value].Some? { VisitHandles(Pop(w, i), p.value, w.waits[p.value].value); }
  }

  // ----- from a step to an execution -----

  ghost predicate TriggeredAt(run: seq<World>, acts: seq<Action>, x: nat, m: nat) {
    m < |acts| && m < |run| && x < |run[m].parts| && Triggers(run[m], acts[m], run[m].parts[x])
  }

  /** `m` is the first action from `i` on that triggers token `x`. */
  ghost predicate FirstTrigger(run: seq<World>, acts: seq<Action>, x: nat, i: nat, m: nat) {
    i <= m && TriggeredAt(run, acts, x, m) && forall n | i <= n < m :: !TriggeredAt(run, acts, x, n)
  }

  lemma LeafOnce(run: seq<World>, acts: seq<Action>, i: nat, x: nat)
    requires Execution(run, acts) && i < |acts| && x < |run[i].parts| && !run[i].parts[x].kind.Composed?
    ensures x < |run[i + 1].parts| && LeafStep(run[i], acts[i], x, run[i].parts[x], run[i + 1].parts[x])
  {
    hide Inv, Do, Enabled, Start;
    ExecutionOk(run, acts, i);
    assert Happens(run, acts, i);
    StepLeaf(run[i], acts[i], x);
  }

  /** What has been queued keeps its time, and its exception. */
  lemma {:induction false} LeftStays(run: seq<World>, acts: seq<Action>, i: nat, j: nat, x: nat)
    requires Execution(run, acts) && i <= j < |run| && x < |run[i].parts| && !run[i].parts[x].kind.Composed?
    requires !run[i].parts[x].place.Held?
    ensures x < |run[j].parts| && run[j].parts[x] == run[i].parts[x].(place := run[j].parts[x].place)
    ensures !run[j].parts[x].place.Held? && (HasLeft(run[j].parts[x]) <==> HasLeft(run[i].parts[x]))
    decreases j - i
  {
    assert |run| == |acts| + 1;
    hide Execution;
    if i < j {
      LeafOnce(run, acts, i, x);
      LeftStays(run, acts, i + 1, j, x);
    }
  }

  /** A token that a coroutine or an event holds is queued by the first action that triggers
      it, for the time of that action plus its latency, and not before. */
  lemma {:induction false} HeldLeaf(run: seq<World>, acts: seq<Action>, i: nat, j: nat, x: nat)
    requires Execution(run, acts) && i <= j < |run| && x < |run[i].parts| && !run[i].parts[x].kind.Composed?
    requires run[i].parts[x].place.Held?
    ensures x < |run[j].parts|
    ensures if forall m | i <= m < j :: !TriggeredAt(run, acts, x, m) then run[j].parts[x] == run[i].parts[x]
            else
              && HasLeft(run[j].parts[x])
              && exists m: nat :: FirstTrigger(run, acts, x, i, m) && m < j
                             && run[j].parts[x].time == run[m].now + run[i].parts[x].latency
    decreases j
  {
    assert |run| == |acts| + 1;
    hide Execution;
    if i < j {
      HeldLeaf(run, acts, i, j - 1, x);
      if forall m | i <= m < j - 1 :: !TriggeredAt(run, acts, x, m) {
        LeafOnce(run, acts, j - 1, x);
        if TriggeredAt(run, acts, x, j - 1) {
          assert FirstTrigger(run, acts, x, i, j - 1);
        }
      } else {
        var m: nat :| FirstTrigger(run, acts, x, i, m) && m < j - 1
          && run[j - 1].parts[x].time == run[m].now + run[i].parts[x].latency;
        HeldKind(run, acts, i, j - 1, x);
        LeftStays(run, acts, j - 1, j, x);
        assert TriggeredAt(run, acts, x, m);
      }
    }
  }

  lemma {:induction false} HeldKind(run: seq<World>, acts: seq<Action>, i: nat, j: nat, x: nat)
    requires Execution(run, acts) && i <= j < |run| && x < |run[i].parts| && !run[i].parts[x].kind.Composed?
    ensures x < |run[j].parts| && run[j].parts[x].kind == run[i].parts[x].kind
    ensures run[j].parts[x].latency == run[i].parts[x].latency && run[j].parts[x].parent == run[i].parts[x].parent
    ensures run[j].parts[x].place.Idle? <==> run[i].parts[x].place.Idle?
    ensures Suspended(run[j].parts[x]) <==> Suspended(run[i].parts[x])
    decreases j
  {
    assert |run| == |acts| + 1;
    hide Execution;
    if i < j {
      HeldKind(run, acts, i, j - 1, x);
      LeafOnce(run, acts, j - 1, x);
    }
  }

  // ----- compositions keep what they are -----

  predicate SameGroup(x: Part, y: Part) {
    && y.kind.Composed? && x.kind.Composed? && y.kind.cond == x.kind.cond && y.latency == x.latency
    && y.parent == x.parent && y.handler == x.handler && (y.place.Idle? <==> x.place.Idle?)
    && (x.place.Unreached? ==> y.place.Unreached?)
  }

  lemma StepGroup(w: World, a: Action, g: nat)
    requires Inv(w) && Enabled(w, a) && g < |w.parts| && w.parts[g].kind.Composed?
    ensures g < |Do(w, a).parts| && SameGroup(w.parts[g], Do(w, a).parts[g])
  {
    assert PartWF(w, g) && PartOk(w, g);
    match a
    case Ticks(_) =>
    case Begins(p, nodes) => BeginOld(w, p, nodes);
    case Launches(h) => LaunchOld(w, h);
    case Asyncs(h) => LaunchOld(w, h);
    case Ends(c, o) =>
    case Wakes(e) =>
    case Takes(t) => TakeGroup(w, t, g);
  }

  lemma TakeGroup(w: World, t: nat, g: nat)
    requires Inv(w) && Enabled(w, Takes(t)) && g < |w.parts| && w.parts[g].kind.Composed?
    ensures g < |Take(w, t).parts| && SameGroup(w.parts[g], Take(w, t).parts[g])
  {
    PopShape(w, t);
    assert PartOk(w, t) && PartOk(w, g);
    assert Take(w, t).parts == Pop(w, t).parts;
    hide Pop, Inv;
  }

  lemma {:induction false} GroupStays(run: seq<World>, acts: seq<Action>, i: nat, j: nat, g: nat)
    requires Execution(run, acts) && i <= j < |run| && g < |run[i].parts| && run[i].parts[g].kind.Composed?
    ensures g < |run[j].parts| && SameGroup(run[i].parts[g], run[j].parts[g])
    decreases j
  {
    hide Inv, Do, Enabled, Start;
    if i < j {
      GroupStays(run, acts, i, j - 1, g);
      ExecutionOk(run, acts, j - 1);
      assert Happens(run, acts, j - 1);
      StepGroup(run[j - 1], acts[j - 1], g);
    }
  }

  // ----- when the nodes of an await are due -----

  /** How the await leaves the part of node `k`. */
  ghost predicate AtBegin(w: World, nodes: seq<Node>, k: nat, y: Part)
    requires k < |nodes| && Knows(w, nodes)
  {
    && y.root == |w.parts| && y.error.None? && !y.place.Taken?
    && y.parent == (if nodes[k].parent.Some? then Some(|w.parts| + nodes[k].parent.value) else None)
    && match nodes[k].what
       case Delay(d) => y.kind.Timed? && (Suspended(y) ==> y.place.InQueue? && y.time == w.now + d)
       case Until(u) => y.kind.Timed? && (Suspended(y) ==> y.place.InQueue? && y.time == u)
       case Wait(e, latency) => y.kind == Signal(e) && y.latency == latency && (Suspended(y) ==> y.place.Held?)
       case Await(h) => y.kind == Through(h) && y.latency == w.handles[h].latency && (Suspended(y) ==> y.place.Held?)
       case Group(cond, latency) =>
         y.kind.Composed? && y.kind.cond == cond && y.latency == latency && (Suspended(y) ==> y.place.Held?)
  }

  lemma {:induction false} SettledBegins(w: World, nodes: seq<Node>, p: nat, k: nat, y: Part)
    requires WF(w) && Knows(w, nodes) && k < |nodes| && Settled(w, Made(w, nodes, p, k), y)
    ensures AtBegin(w, nodes, k, y)
  {
  }

  lemma {:induction false} ReadyPart(w: World, p: nat, nodes: seq<Node>, k: nat)
    requires WF(w) && Knows(w, nodes) && IsTree(nodes) && p < |w.waits| && k < |nodes| && Ready(w, nodes, 0)
    ensures |Begin(w, p, nodes).parts| == |w.parts| + |nodes|
    ensures Begin(w, p, nodes).parts[|w.parts| + k] == Made(w, nodes, p, k)
  {
    PlantWF(w, nodes, p);
    PlantMade(w, nodes, p, k);
    hide Made, Plant;
  }

  lemma {:induction false} SuspendedPart(w: World, p: nat, nodes: seq<Node>, k: nat)
    requires Inv(w) && Enabled(w, Begins(p, nodes)) && k < |nodes| && !Ready(w, nodes, 0)
    ensures |Begin(w, p, nodes).parts| == |w.parts| + |nodes|
    ensures Settled(w, Made(w, nodes, p, k), Begin(w, p, nodes).parts[|w.parts| + k])
  {
    PlantCore(w, nodes, p);
    PlantPartly(w, nodes, p);
    var m, n, r := Plant(w, nodes, p), |w.parts|, Begin(w, p, nodes);
    forall i | 0 <= i < |nodes| ensures m.parts[n + i] == Made(w, nodes, p, i) { PlantMade(w, nodes, p, i); }
    WaitCore(m, p, n, Some(p));
    SuspendFromOk(WaitFor(m, p, n), n, Some(p), n);
    hide Plant, Inv, Core, Made, Ready;
    SuspendsBegun(w, nodes, p, WaitFor(m, p, n), r);
  }

  lemma {:induction false} BeginPart(w: World, p: nat, nodes: seq<Node>, k: nat)
    requires Inv(w) && Enabled(w, Begins(p, nodes)) && k < |nodes|
    ensures |Begin(w, p, nodes).parts| == |w.parts| + |nodes|
    ensures AtBegin(w, nodes, k, Begin(w, p, nodes).parts[|w.parts| + k])
  {
    if Ready(w, nodes, 0) { ReadyPart(w, p, nodes, k); } else { SuspendedPart(w, p, nodes, k); }
    hide Inv, Begin, Made, Ready, AtBegin;
    SettledBegins(w, nodes, p, k, Begin(w, p, nodes).parts[|w.parts| + k]);
  }

  /** What ends the wait of a node: the wake of its event, the end of its coroutine. */
  predicate EndsWait(w: World, what: What, a: Action) {
    match what
    case Wait(e, _) => a == Wakes(e)
    case Await(h) => a.Ends? && h < |w.handles| && a.c == w.handles[h].coro
    case _ => false
  }

  /** Action `m` is the first after the await was begun, as action `i`, that ends the wait of
      the node. */
  ghost predicate FirstEnd(run: seq<World>, acts: seq<Action>, i: nat, what: What, m: nat)
    requires i < |run|
  {
    i < m < |acts| && EndsWait(run[i], what, acts[m]) && forall n | i < n < m :: !EndsWait(run[i], what, acts[n])
  }

  /** Action `i` is the await of `nodes`, and these have been told of in state `j`. */
  ghost predicate Awaits(run: seq<World>, acts: seq<Action>, i: nat, j: nat, nodes: seq<Node>) {
    Execution(run, acts) && i < j < |run| && i < |acts| && acts[i].Begins? && acts[i].nodes == nodes
  }

  /** When the token of a leaf is due: a delay after it was begun, a time at that time, an event
      the latency after its first wake since, and a coroutine the return latency of its
      handle after its end. */
  ghost predicate LeafDue(run: seq<World>, acts: seq<Action>, i: nat, j: nat, what: What, t: int)
    requires i < |run| && j <= |acts| < |run|
  {
    match what
    case Delay(d) => t == run[i].now + d
    case Until(u) => t == u
    case Wait(_, latency) => exists m: nat :: FirstEnd(run, acts, i, what, m) && m < j && t == run[m].now + latency
    case Await(h) =>
      h < |run[i].handles| &&
      exists m: nat :: FirstEnd(run, acts, i, what, m) && m < j && t == run[m].now + run[i].handles[h].latency
    case Group(_, _) => false
  }

  lemma {:induction false} HandlesStay(run: seq<World>, acts: seq<Action>, i: nat, j: nat)
    requires Execution(run, acts) && i <= j < |run|
    ensures |run[j].handles| == |run[i].handles|
    ensures forall h | 0 <= h < |run[i].handles| :: SameObject(run[i].handles[h], run[j].handles[h])
    decreases j
  {
    assert |run| == |acts| + 1;
    hide Execution;
    if i < j {
      HandlesStay(run, acts, i, j - 1);
      SameHandles(run, acts, j - 1);
    }
  }

  /** The part of node `k`. */
  function PartOf(run: seq<World>, i: nat, k: nat): nat
    requires i < |run|
  {
    |run[i].parts| + k
  }

  lemma {:induction false} BegunPart(run: seq<World>, acts: seq<Action>, i: nat, j: nat, nodes: seq<Node>, k: nat)
    requires Awaits(run, acts, i, j, nodes) && k < |nodes|
    ensures Knows(run[i], nodes) && IsTree(nodes) && |run[i + 1].parts| == |run[i].parts| + |nodes|
    ensures AtBegin(run[i], nodes, k, run[i + 1].parts[PartOf(run, i, k)])
  {
    hide Inv, Start;
    ExecutionOk(run, acts, i);
    assert Happens(run, acts, i);
    BeginPart(run[i], acts[i].p, nodes, k);
  }

  lemma {:induction false} TriggerIsEnd(run: seq<World>, acts: seq<Action>, i: nat, j: nat, nodes: seq<Node>, k: nat,
                                        m: nat)
    requires Awaits(run, acts, i, j, nodes) && k < |nodes| && i < m < j && !nodes[k].what.Group?
    ensures TriggeredAt(run, acts, PartOf(run, i, k), m) <==> EndsWait(run[i], nodes[k].what, acts[m])
  {
    BegunPart(run, acts, i, j, nodes, k);
    HeldKind(run, acts, i + 1, m, PartOf(run, i, k));
    HandlesStay(run, acts, i, m);
    assert nodes[k].what.Await? ==> SameObject(run[i].handles[nodes[k].what.h], run[m].handles[nodes[k].what.h]);
  }

  /** The token of a leaf that was suspended on has been queued if and only if it is due, and
      then for the time at which it is. */
  lemma {:induction false} LeafDueIff(run: seq<World>, acts: seq<Action>, i: nat, j: nat, nodes: seq<Node>, k: nat)
    requires Awaits(run, acts, i, j, nodes) && k < |nodes| && !nodes[k].what.Group?
    ensures PartOf(run, i, k) < |run[j].parts|
    ensures var x := run[j].parts[PartOf(run, i, k)];
      Suspended(x) ==>
        && (HasLeft(x) <==> exists t :: LeafDue(run, acts, i, j, nodes[k].what, t))
        && (HasLeft(x) ==> LeafDue(run, acts, i, j, nodes[k].what, x.time))
  {
    assert |run| == |acts| + 1;
    var x := PartOf(run, i, k);
    BegunPart(run, acts, i, j, nodes, k);
    HeldKind(run, acts, i + 1, j, x);
    var what := nodes[k].what;
    hide Execution;
    if Suspended(run[i + 1].parts[x]) {
      if run[i + 1].parts[x].place.Held? {
        HeldLeaf(run, acts, i + 1, j, x);
        HeldDue(run, acts, i, j, nodes, k);
      } else {
        LeftStays(run, acts, i + 1, j, x);
        assert LeafDue(run, acts, i, j, what, run[j].parts[x].time);
      }
    }
  }

  lemma {:induction false} HeldDue(run: seq<World>, acts: seq<Action>, i: nat, j: nat, nodes: seq<Node>, k: nat)
    requires Awaits(run, acts, i, j, nodes) && k < |nodes| && !nodes[k].what.Group?
    requires |run[i + 1].parts| == |run[i].parts| + |nodes| && run[i + 1].parts[PartOf(run, i, k)].place.Held?
    ensures PartOf(run, i, k) < |run[j].parts|
    ensures var x := run[j].parts[PartOf(run, i, k)];
      && (HasLeft(x) <==> exists t :: LeafDue(run, acts, i, j, nodes[k].what, t))
      && (HasLeft(x) ==> LeafDue(run, acts, i, j, nodes[k].what, x.time))
  {
    assert |run| == |acts| + 1;
    var x, what := PartOf(run, i, k), nodes[k].what;
    BegunPart(run, acts, i, j, nodes, k);
    HeldLeaf(run, acts, i + 1, j, x);
    hide Execution;
    forall m | i < m < j ensures TriggeredAt(run, acts, x, m) <==> EndsWait(run[i], what, acts[m]) {
      TriggerIsEnd(run, acts, i, j, nodes, k, m);
    }
    if m: nat :| i + 1 <= m < j && TriggeredAt(run, acts, x, m) {
      var m1: nat :| FirstTrigger(run, acts, x, i + 1, m1) && m1 < j
        && run[j].parts[x].time == run[m1].now + run[i + 1].parts[x].latency;
      assert FirstEnd(run, acts, i, what, m1);
      assert LeafDue(run, acts, i, j, what, run[j].parts[x].time);
    }
  }

  // ----- when compositions are due -----

  /** The token of node `c` has been queued for the handler of node `k`. */
  ghost predicate Queues(run: seq<World>, i: nat, j: nat, nodes: seq<Node>, k: nat, c: nat)
    requires i < |run| && j < |run|
  {
    && k < c < |nodes| && nodes[c].parent == Some(k) && PartOf(run, i, c) < |run[j].parts|
    && HasLeft(run[j].parts[PartOf(run, i, c)]) && run[j].parts[PartOf(run, i, c)].handler == Some(PartOf(run, i, k))
  }

  predicate Clean(run: seq<World>, i: nat, j: nat, c: nat)
    requires i < |run| && j < |run|
  {
    PartOf(run, i, c) < |run[j].parts| && run[j].parts[PartOf(run, i, c)].error.None?
  }

  /** Node `c` has not been asked to wait. */
  predicate Skipped(run: seq<World>, i: nat, j: nat, c: nat)
    requires i < |run| && j < |run|
  {
    PartOf(run, i, c) < |run[j].parts| && run[j].parts[PartOf(run, i, c)].place.Idle?
  }

  /** When a node is due, down to the leaves: an any_of its latency after the earliest of its
      children without an exception, an all_of after the latest of all, which must have none. */
  ghost predicate Due(run: seq<World>, acts: seq<Action>, i: nat, j: nat, nodes: seq<Node>, k: nat, t: int)
    requires i < |run| && j <= |acts| < |run| && k < |nodes|
    decreases |nodes| - k, 1
  {
    match nodes[k].what
    case Group(cond, latency) =>
      exists c: nat, tc: int ::
        && k < c < |nodes| && Queues(run, i, j, nodes, k, c) && Clean(run, i, j, c)
        && Due(run, acts, i, j, nodes, c, tc) && t == tc + latency && Outermost(run, acts, i, j, nodes, k, tc)
    case what => LeafDue(run, acts, i, j, what, t)
  }

  /** No child of the any_of `k` without an exception is due before `tc`, or all children of
      the all_of `k` that it waits for are due by then. */
  ghost predicate Outermost(run: seq<World>, acts: seq<Action>, i: nat, j: nat, nodes: seq<Node>, k: nat, tc: int)
    requires i < |run| && j <= |acts| < |run| && k < |nodes| && nodes[k].what.Group?
    decreases |nodes| - k, 0
  {
    var cond := nodes[k].what.cond;
    && (forall d: nat | k < d < |nodes| && Queues(run, i, j, nodes, k, d) && (cond.AllOf? || Clean(run, i, j, d)) ::
          exists td: int :: Due(run, acts, i, j, nodes, d, td) && if cond.AnyOf? then tc <= td else td <= tc)
    && (cond.AllOf? ==>
          forall d: nat | k < d < |nodes| && nodes[d].parent == Some(k) && !Skipped(run, i, j, d) ::
            Queues(run, i, j, nodes, k, d))
  }

  lemma {:induction false} LeafDueUnique(run: seq<World>, acts: seq<Action>, i: nat, j: nat, what: What, a: int, b: int)
    requires i < |run| && j <= |acts| < |run|
    requires LeafDue(run, acts, i, j, what, a) && LeafDue(run, acts, i, j, what, b)
    ensures a == b
  {
    if what.Wait? || what.Await? {
      var latency := if what.Wait? then what.latency else run[i].handles[what.h].latency;
      var m: nat :| FirstEnd(run, acts, i, what, m) && m < j && a == run[m].now + latency;
      var n: nat :| FirstEnd(run, acts, i, what, n) && n < j && b == run[n].now + latency;
    }
  }

  /** A node is due at one time only. */
  lemma {:induction false} DueUnique(run: seq<World>, acts: seq<Action>, i: nat, j: nat, nodes: seq<Node>, k: nat,
                                     a: int, b: int)
    requires i < |run| && j <= |acts| < |run| && k < |nodes|
    requires Due(run, acts, i, j, nodes, k, a) && Due(run, acts, i, j, nodes, k, b)
    ensures a == b
    decreases |nodes| - k
  {
    if nodes[k].what.Group? {
      var x := GroupChoice(run, acts, i, j, nodes, k, a);
      var y := GroupChoice(run, acts, i, j, nodes, k, b);
      hide Due;
      var ty := Compare(run, acts, i, j, nodes, k, x, y);
      DueUnique(run, acts, i, j, nodes, y.0, ty, y.1);
      var tx := Compare(run, acts, i, j, nodes, k, y, x);
      DueUnique(run, acts, i, j, nodes, x.0, tx, x.1);
    } else {
      LeafDueUnique(run, acts, i, j, nodes[k].what, a, b);
    }
  }

  /** The child by which a composition is due, and when. */
  ghost predicate Chosen(run: seq<World>, acts: seq<Action>, i: nat, j: nat, nodes: seq<Node>, k: nat, x: (nat, int))
    requires i < |run| && j <= |acts| < |run| && k < |nodes| && nodes[k].what.Group?
  {
    && k < x.0 < |nodes| && Queues(run, i, j, nodes, k, x.0) && Clean(run, i, j, x.0)
    && Due(run, acts, i, j, nodes, x.0, x.1) && Outermost(run, acts, i, j, nodes, k, x.1)
  }

  lemma {:induction false} GroupChoice(run: seq<World>, acts: seq<Action>, i: nat, j: nat, nodes: seq<Node>, k: nat,
                                       t: int) returns (x: (nat, int))
    requires i < |run| && j <= |acts| < |run| && k < |nodes| && nodes[k].what.Group?
    requires Due(run, acts, i, j, nodes, k, t)
    ensures Chosen(run, acts, i, j, nodes, k, x) && t == x.1 + nodes[k].what.latency
  {
    var c: nat, tc: int :|
      && k < c < |nodes| && Queues(run, i, j, nodes, k, c) && Clean(run, i, j, c)
      && Due(run, acts, i, j, nodes, c, tc) && t == tc + nodes[k].what.latency
      && Outermost(run, acts, i, j, nodes, k, tc);
    x := (c, tc);
  }

  lemma {:induction false} Compare(run: seq<World>, acts: seq<Action>, i: nat, j: nat, nodes: seq<Node>, k: nat,
                                   x: (nat, int), y: (nat, int)) returns (td: int)
    requires i < |run| && j <= |acts| < |run| && k < |nodes| && nodes[k].what.Group?
    requires Chosen(run, acts, i, j, nodes, k, x) && Chosen(run, acts, i, j, nodes, k, y)
    ensures Due(run, acts, i, j, nodes, y.0, td)
    ensures if nodes[k].what.cond.AnyOf? then x.1 <= td else td <= x.1
  {
    assert Outermost(run, acts, i, j, nodes, k, x.1) && Queues(run, i, j, nodes, k, y.0) && Clean(run, i, j, y.0);
    td :| Due(run, acts, i, j, nodes, y.0, td) && if nodes[k].what.cond.AnyOf? then x.1 <= td else td <= x.1;
  }

  lemma {:induction false} NodeParts(run: seq<World>, acts: seq<Action>, i: nat, j: nat, nodes: seq<Node>, k: nat)
    requires Awaits(run, acts, i, j, nodes) && k < |nodes|
    ensures PartOf(run, i, k) < |run[j].parts| && IsTree(nodes)
    ensures var x := run[j].parts[PartOf(run, i, k)];
      && x.parent == (if nodes[k].parent.Some? then Some(PartOf(run, i, nodes[k].parent.value)) else None)
      && (x.kind.Composed? <==> nodes[k].what.Group?)
      && (x.kind.Composed? ==> x.kind.cond == nodes[k].what.cond && x.latency == nodes[k].what.latency)
  {
    BegunPart(run, acts, i, j, nodes, k);
    var x := PartOf(run, i, k);
    if nodes[k].what.Group? {
      GroupStays(run, acts, i + 1, j, x);
    } else {
      HeldKind(run, acts, i + 1, j, x);
    }
  }

  /** Parts of the await in state `j` that have node `k` above them are those of its children. */
  lemma {:induction false} ChildNode(run: seq<World>, acts: seq<Action>, i: nat, j: nat, nodes: seq<Node>, k: nat,
                                     c: nat)
    requires Awaits(run, acts, i, j, nodes) && k < |nodes| && c < |run[j].parts|
    requires run[j].parts[c].parent == Some(PartOf(run, i, k))
    ensures c > PartOf(run, i, k) && c - |run[i].parts| < |nodes| && nodes[c - |run[i].parts|].parent == Some(k)
  {
    ExecutionOk(run, acts, j);
    assert PartWF(run[j], c);
    NodeParts(run, acts, i, j, nodes, k);
    assert PartWF(run[j], PartOf(run, i, k));
    BegunPart(run, acts, i, j, nodes, k);
    RootsStay(run, acts, i + 1, j, PartOf(run, i, k));
    if c < |run[i + 1].parts| {
      NodeParts(run, acts, i, j, nodes, c - |run[i].parts|);
    } else {
      NewRoots(run, acts, i + 1, j, c);
    }
  }

  lemma {:induction false} RootsStay(run: seq<World>, acts: seq<Action>, i: nat, j: nat, x: nat)
    requires Execution(run, acts) && i <= j < |run| && x < |run[i].parts|
    ensures x < |run[j].parts| && run[j].parts[x].root == run[i].parts[x].root
    decreases j
  {
    if i < j {
      RootsStay(run, acts, i, j - 1, x);
      ExecutionOk(run, acts, j - 1);
      assert Happens(run, acts, j - 1);
      DoRoots(run[j - 1], acts[j - 1]);
    }
  }

  /** Nodes of later awaits have later roots. */
  lemma {:induction false} NewRoots(run: seq<World>, acts: seq<Action>, i: nat, j: nat, x: nat)
    requires Execution(run, acts) && i <= j < |run| && |run[i].parts| <= x < |run[j].parts|
    ensures run[j].parts[x].root >= |run[i].parts|
    decreases j
  {
    if i < j {
      ExecutionOk(run, acts, j - 1);
      assert Happens(run, acts, j - 1);
      DoRoots(run[j - 1], acts[j - 1]);
      PartsGrow(run, acts, i, j - 1);
      if x < |run[j - 1].parts| {
        NewRoots(run, acts, i, j - 1, x);
      }
    }
  }

  lemma {:induction false} PartsGrow(run: seq<World>, acts: seq<Action>, i: nat, j: nat)
    requires Execution(run, acts) && i <= j < |run|
    ensures |run[i].parts| <= |run[j].parts|
    decreases j
  {
    if i < j {
      PartsGrow(run, acts, i, j - 1);
      ExecutionOk(run, acts, j - 1);
      assert Happens(run, acts, j - 1);
      DoRoots(run[j - 1], acts[j - 1]);
    }
  }

  lemma {:induction false} DoRoots(w: World, a: Action)
    requires Inv(w) && Enabled(w, a)
    ensures |w.parts| <= |Do(w, a).parts|
    ensures forall x | 0 <= x < |w.parts| :: Do(w, a).parts[x].root == w.parts[x].root
    ensures forall x | |w.parts| <= x < |Do(w, a).parts| :: Do(w, a).parts[x].root >= |w.parts|
  {
    match a
    case Ticks(_) =>
    case Begins(p, nodes) =>
      BeginOld(w, p, nodes);
      forall x | |w.parts| <= x < |Do(w, a).parts| ensures Do(w, a).parts[x].root >= |w.parts| {
        BeginPart(w, p, nodes, 0);
        BeginPart(w, p, nodes, x - |w.parts|);
        assert x == |w.parts| + (x - |w.parts|);
      }
    case Launches(h) => LaunchRoots(w, h);
    case Asyncs(h) => LaunchRoots(w, h);
    case Ends(_, _) =>
    case Wakes(_) =>
    case Takes(t) =>
      assert PartWF(w, t);
      PopShape(w, t);
      hide Pop, Inv;
      forall x | 0 <= x < |w.parts| ensures Do(w, a).parts[x].root == w.parts[x].root {
        assert Kept(w.parts[x], Pop(w, t).parts[x]);
      }
  }

  lemma LaunchRoots(w: World, h: nat)
    requires Inv(w) && h < |w.handles|
    ensures Old(w, Launch(w, h))
    ensures forall x | |w.parts| <= x < |Launch(w, h).parts| :: Launch(w, h).parts[x].root >= |w.parts|
  {
    assert HandleWF(w, w.handles[h]);
    if w.coros[w.handles[h].coro].done.None? {
      LaunchGrown(w, h);
      forall x | |w.parts| <= x < |Launch(w, h).parts| ensures Launch(w, h).parts[x].root >= |w.parts| {
        assert NewPart(Launch(w, h), |w.parts|, x);
      }
    }
  }

  /** Why a composition has fired, told by its parts. */
  lemma GroupFired(w: World, g: nat) returns (c: nat)
    requires Inv(w) && Orderly(w) && g < |w.parts| && w.parts[g].kind.Composed? && HasLeft(w.parts[g])
    ensures Firing(w, g, c) && PartWF(w, c) && w.parts[c].parent == Some(g) && w.parts[c].time <= w.now
    ensures w.parts[g].kind.cond.AllOf? ==> Pending(w.parts, g) == {}
    ensures forall d | 0 <= d < |w.parts| && w.parts[d].place.InQueue? :: w.now <= w.parts[d].time
  {
    assert TimeOk(w, g) && GroupOk(w, g);
    c :| Firing(w, g, c);
    assert PartWF(w, c) && TimeOk(w, c);
    forall d | 0 <= d < |w.parts| && w.parts[d].place.InQueue? ensures w.now <= w.parts[d].time {
      assert TimeOk(w, d);
    }
  }

  /** The children of a composition that has fired, compared with the one that fired it. */
  lemma FiredBefore(w: World, g: nat, c: nat, d: nat)
    requires FiredBy(w, g, c) && d < |w.parts| && w.parts[d].parent == Some(g)
    ensures w.parts[g].kind.cond.AllOf? ==>
      (w.parts[d].place.Idle? || (Handled(w.parts[d], g) && w.parts[d].time <= w.parts[c].time))
    ensures w.parts[g].kind.cond.AnyOf? && HasLeft(w.parts[d]) && w.parts[d].handler == Some(g)
            && w.parts[d].error.None? ==>
      w.parts[c].time <= w.parts[d].time
  {
    assert IsPending(w.parts[d], g) <==> d in Pending(w.parts, g);
  }

  ghost predicate FiredBy(w: World, g: nat, c: nat) {
    && g < |w.parts| && w.parts[g].kind.Composed? && Firing(w, g, c) && w.parts[c].time <= w.now
    && (w.parts[g].kind.cond.AllOf? ==> Pending(w.parts, g) == {})
    && forall d | 0 <= d < |w.parts| && w.parts[d].place.InQueue? :: w.now <= w.parts[d].time
  }

  /** As long as no process that nobody waits for has thrown, every token of an await, of a
      timer, an event, a coroutine or a composition, is queued for the time at which its node
      is due. */
  lemma {:induction false} FiresWhen(run: seq<World>, acts: seq<Action>, i: nat, j: nat, nodes: seq<Node>, k: nat)
    requires Awaits(run, acts, i, j, nodes) && k < |nodes| && Orderly(run[j])
    ensures |run| == |acts| + 1 && PartOf(run, i, k) < |run[j].parts|
    ensures HasLeft(run[j].parts[PartOf(run, i, k)]) ==>
      Due(run, acts, i, j, nodes, k, run[j].parts[PartOf(run, i, k)].time)
    decreases |nodes| - k, 1
  {
    var w, g := run[j], PartOf(run, i, k);
    NodeParts(run, acts, i, j, nodes, k);
    if !nodes[k].what.Group? {
      LeafDueIff(run, acts, i, j, nodes, k);
    } else if HasLeft(w.parts[g]) {
      ExecutionOk(run, acts, j);
      var c := GroupFired(w, g);
      assert |run| == |acts| + 1;
      hide Inv, Execution, Due;
      ChildNode(run, acts, i, j, nodes, k, c);
      var kc := c - |run[i].parts|;
      FiresWhen(run, acts, i, j, nodes, kc);
      ChildrenDue(run, acts, i, j, nodes, k, c);
      GroupDue(run, acts, i, j, nodes, k, kc, w.parts[c].time);
    }
  }

  lemma {:induction false} ChildrenDue(run: seq<World>, acts: seq<Action>, i: nat, j: nat, nodes: seq<Node>, k: nat,
                                       c: nat)
    requires Awaits(run, acts, i, j, nodes) && k < |nodes| && Orderly(run[j]) && nodes[k].what.Group?
    requires FiredBy(run[j], PartOf(run, i, k), c) && run[j].parts[PartOf(run, i, k)].kind.cond == nodes[k].what.cond
    ensures |run| == |acts| + 1 && Outermost(run, acts, i, j, nodes, k, run[j].parts[c].time)
    decreases |nodes| - k, 0
  {
    var w, g, cond := run[j], PartOf(run, i, k), nodes[k].what.cond;
    assert |run| == |acts| + 1;
    hide Execution, Due;
    forall d: nat | k < d < |nodes| && Queues(run, i, j, nodes, k, d) && (cond.AllOf? || Clean(run, i, j, d))
      ensures exists td: int ::
        Due(run, acts, i, j, nodes, d, td) && if cond.AnyOf? then w.parts[c].time <= td else td <= w.parts[c].time
    {
      NodeParts(run, acts, i, j, nodes, d);
      FiredBefore(w, g, c, PartOf(run, i, d));
      FiresWhen(run, acts, i, j, nodes, d);
      assert Due(run, acts, i, j, nodes, d, w.parts[PartOf(run, i, d)].time);
    }
    forall d: nat | cond.AllOf? && k < d < |nodes| && nodes[d].parent == Some(k) && !Skipped(run, i, j, d)
      ensures Queues(run, i, j, nodes, k, d)
    {
      NodeParts(run, acts, i, j, nodes, d);
      FiredBefore(w, g, c, PartOf(run, i, d));
    }
  }

  lemma {:induction false} GroupDue(run: seq<World>, acts: seq<Action>, i: nat, j: nat, nodes: seq<Node>, k: nat,
                                    c: nat, tc: int)
    requires i < |run| && j <= |acts| < |run| && k < |nodes| && nodes[k].what.Group?
    requires k < c < |nodes| && Queues(run, i, j, nodes, k, c) && Clean(run, i, j, c)
    requires Due(run, acts, i, j, nodes, c, tc) && Outermost(run, acts, i, j, nodes, k, tc)
    ensures Due(run, acts, i, j, nodes, k, tc + nodes[k].what.latency)
  {
  }

  // ----- how far suspending gets -----

  /** Suspending from node `i` on gets to `f`: what is wanted before has been suspended on, from
      there on nothing has. If `f` is a node then its handle was held by another token, and
      the compositions above it, and only they, have lost their handlers. */
  ghost predicate GetsTo(w: World, r: World, i: nat, f: nat) {
    && |r.parts| == |w.parts| && |r.handles| == |w.handles| && i <= f <= |w.parts|
    && (forall j | i <= j < f && w.parts[j].place.Unreached? :: Suspended(r.parts[j]))
    && (forall j | 0 <= j < |w.parts| && (j < i || j >= f || !w.parts[j].place.Unreached?) ::
          r.parts[j].place == w.parts[j].place)
    && (forall j | 0 <= j < |w.parts| ::
          r.parts[j].handler == if f < |w.parts| && Above(w.parts, f, j) then None else w.parts[j].handler)
    && (f < |w.parts| ==>
          && w.parts[f].place.Unreached? && w.parts[f].kind.Through? && w.parts[f].kind.h < |r.handles|
          && r.handles[w.parts[f].kind.h].token.Some? && r.handles[w.parts[f].kind.h].token != Some(f))
    && SaysSo(w, r, if f < |w.parts| then Some(w.parts[f].proc) else None)
  }

  /** The history has only new registrations, and at the end the refusal, if there was one;
      the process that was refused waits for nothing. */
  ghost predicate SaysSo(w: World, r: World, refused: Option<Option<nat>>) {
    var last := |r.log| - if refused.Some? then 1 else 0;
    && w.log <= r.log && |w.log| <= last && (forall k | |w.log| <= k < last :: r.log[k].Registered?)
    && match refused
       case None => r.waits == w.waits
       case Some(p) =>
         r.log[last] == Refused(p)
         && r.waits == if p.Some? && p.value < |w.waits| then w.waits[p.value := None] else w.waits
  }

  predicate SameLinks(a: seq<Part>, b: seq<Part>) {
    |a| == |b| && forall j | 0 <= j < |a| :: b[j].parent == a[j].parent
  }

  lemma {:induction false} AboveSame(a: seq<Part>, b: seq<Part>, j: nat, g: nat)
    requires SameLinks(a, b) && j < |a|
    ensures Above(b, j, g) <==> Above(a, j, g)
    decreases j
  {
    if a[j].parent.Some? && a[j].parent.value < j {
      AboveSame(a, b, a[j].parent.value, g);
    }
  }

  /** No handle holds the token of a node from `i` on, none of which has been made. */
  ghost predicate FreeFrom(w: World, i: nat) {
    forall h | 0 <= h < |w.handles| :: w.handles[h].token.Some? ==> w.handles[h].token.value < i
  }

  lemma {:induction false} SuspendGetsTo(w: World, i: nat) returns (f: nat)
    requires WF(w) && i <= |w.parts| && FreeFrom(w, i)
    ensures GetsTo(w, SuspendFrom(w, i), i, f)
    decreases |w.parts| - i
  {
    f := i;
    if i < |w.parts| {
      assert PartWF(w, i);
      if !w.parts[i].place.Unreached? {
        f := SuspendGetsTo(w, i + 1);
        assert SuspendFrom(w, i) == SuspendFrom(w, i + 1);
      } else if !IsAwaited(w, i) {
        SuspendWF(w, i);
        var m := Suspend(w, i);
        f := SuspendGetsTo(m, i + 1);
        assert SuspendFrom(w, i) == SuspendFrom(m, i + 1);
        SuspendJoins(w, m, SuspendFrom(w, i), i, f);
      }
    }
  }

  lemma SuspendJoins(w: World, m: World, r: World, i: nat, f: nat)
    requires WF(w) && i < |w.parts| && w.parts[i].place.Unreached? && m == Suspend(w, i) && GetsTo(m, r, i + 1, f)
    ensures GetsTo(w, r, i, f)
  {
    assert PartWF(w, i);
    assert SameLinks(w.parts, m.parts);
    if f < |w.parts| {
      forall j | 0 <= j < |w.parts| ensures Above(m.parts, f, j) <==> Above(w.parts, f, j) {
        AboveSame(w.parts, m.parts, f, j);
      }
    }
  }

  lemma {:induction false} BeginGetsTo(w: World, p: nat, nodes: seq<Node>) returns (m: World, g: nat)
    requires Inv(w) && Enabled(w, Begins(p, nodes)) && !Ready(w, nodes, 0)
    ensures var n := |w.parts|;
      && |m.parts| == n + |nodes| && m.waits == w.waits[p := Some(n)] && m.log == w.log
      && GetsTo(m, Begin(w, p, nodes), n, g)
      && forall k | 0 <= k < |nodes| :: m.parts[n + k] == Made(w, nodes, p, k)
  {
    var m0, n := Plant(w, nodes, p), |w.parts|;
    PlantCore(w, nodes, p);
    PlantPartly(w, nodes, p);
    WaitCore(m0, p, n, Some(p));
    m := WaitFor(m0, p, n);
    assert FreeFrom(m, n) by {
      forall h | 0 <= h < |w.handles| ensures w.handles[h].token.Some? ==> w.handles[h].token.value < n {
        assert HandleWF(w, w.handles[h]);
      }
    }
    forall k | 0 <= k < |nodes| ensures m.parts[n + k] == Made(w, nodes, p, k) { PlantMade(w, nodes, p, k); }
    g := SuspendGetsTo(m, n);
  }

  /** An await that is not ready suspends on every node that is wanted, and then waits; or it
      gets to a node whose handle holds another token, and goes on with an exception. */
  lemma {:induction false} BeginOutcome(w: World, p: nat, nodes: seq<Node>) returns (f: nat)
    requires Inv(w) && Enabled(w, Begins(p, nodes)) && !Ready(w, nodes, 0)
    ensures var r, n := Begin(w, p, nodes), |w.parts|;
      && f <= |nodes| && |r.parts| == n + |nodes| && |r.waits| == |w.waits|
      && r.waits[p] == (if f < |nodes| then None else Some(n))
      && w.log <= r.log && (Refused(Some(p)) in r.log[|w.log|..] <==> f < |nodes|)
      && (forall k | 0 <= k < |nodes| :: NodeOutcome(w, r, nodes, k, f))
  {
    var n, r := |w.parts|, Begin(w, p, nodes);
    var m, g := BeginGetsTo(w, p, nodes);
    f := g - n;
    hide Inv, Begin, Made, Ready, IsTree;
    if f < |nodes| {
      MadeIs(w, nodes, p, f);
      assert m.parts[n + f].proc == Some(p);
      assert r.log[|w.log|..][|r.log| - 1 - |w.log|] == Refused(Some(p));
    }
    forall k | 0 <= k < |nodes| ensures NodeOutcome(w, r, nodes, k, f) {
      assert m.parts[n + k] == Made(w, nodes, p, k);
      MadePlace(w, nodes, p, k);
    }
  }

  lemma {:induction false} MadePlace(w: World, nodes: seq<Node>, p: nat, k: nat)
    requires WF(w) && Knows(w, nodes) && k < |nodes|
    ensures Made(w, nodes, p, k).place == if Wanted(w, nodes, k) then Unreached else Idle
  {
  }

  ghost predicate NodeOutcome(w: World, r: World, nodes: seq<Node>, k: nat, f: nat)
    requires WF(w) && Knows(w, nodes) && k < |nodes| && f <= |nodes|
  {
    var n := |w.parts|;
    n + k < |r.parts| && if !Wanted(w, nodes, k) then r.parts[n + k].place.Idle?
                         else if k < f then Suspended(r.parts[n + k]) else r.parts[n + k].place.Unreached?
  }

  // ----- which coroutines are started and ended -----

  ghost predicate Starts(w: World, a: Action, c: nat) {
    match a
    case Begins(_, nodes) =>
      exists k :: 0 <= k < |nodes| && nodes[k].what.Await? && nodes[k].what.h < |w.handles|
                  && w.handles[nodes[k].what.h].coro == c
    case Launches(h) => h < |w.handles| && w.handles[h].coro == c
    case Asyncs(h) => h < |w.handles| && w.handles[h].coro == c
    case _ => false
  }

  lemma {:induction false} SuspendCoros(w: World, i: nat)
    requires WF(w)
    ensures SuspendFrom(w, i).coros == w.coros
    decreases |w.parts| - i
  {
    if i < |w.parts| {
      if !w.parts[i].place.Unreached? {
        SuspendCoros(w, i + 1);
      } else if !IsAwaited(w, i) {
        SuspendWF(w, i);
        SuspendCoros(Suspend(w, i), i + 1);
      }
    }
  }

  lemma LaunchCoros(w: World, h: nat, c: nat)
    requires WF(w) && h < |w.handles| && c < |w.coros|
    ensures |Launch(w, h).coros| == |w.coros|
    ensures Launch(w, h).coros[c].done == w.coros[c].done
    ensures w.coros[c].done.None? ==> (Launch(w, h).coros[c].bound <==> w.coros[c].bound || w.handles[h].coro == c)
  {
    assert HandleWF(w, w.handles[h]);
    BareWF(w, h);
    if w.coros[w.handles[h].coro].done.None? { SuspendCoros(BareWorld(w, h), |w.parts|); }
  }

  lemma {:induction false} BeginCoros(w: World, p: nat, nodes: seq<Node>)
    requires WF(w) && Knows(w, nodes) && IsTree(nodes) && p < |w.waits|
    ensures Begin(w, p, nodes).coros == BindAll(w, nodes)
  {
    PlantWF(w, nodes, p);
    if !Ready(w, nodes, 0) {
      var m := Plant(w, nodes, p);
      WaitWF(m, p, |w.parts|);
      SuspendCoros(WaitFor(m, p, |w.parts|), |w.parts|);
    }
  }

  /** Awaiting, launching or `async` binds every coroutine that is reached and has not ended,
      and nothing else does; a coroutine has ended when its body has, and only then. */
  lemma CoroutinesFollow(w: World, a: Action, c: nat)
    requires Inv(w) && Enabled(w, a) && c < |w.coros|
    ensures |Do(w, a).coros| == |w.coros|
    ensures Do(w, a).coros[c].done == if a.Ends? && a.c == c then Some(a.o) else w.coros[c].done
    ensures w.coros[c].done.None? ==> (Do(w, a).coros[c].bound <==> w.coros[c].bound || Starts(w, a, c))
  {
    hide Inv;
    match a
    case Ticks(_) =>
    case Begins(p, nodes) => BeginCoros(w, p, nodes);
    case Launches(h) => LaunchCoros(w, h, c);
    case Asyncs(h) => LaunchCoros(w, h, c);
    case Ends(_, _) =>
    case Wakes(_) =>
    case Takes(i) => PopWF(w, i);
  }
}
