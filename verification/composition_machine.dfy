/** Compositions over timers, events and coroutines, where coroutines may throw and
    their handles may be shared: any number of processes, one after the other or at the
    same time, await trees that reach the same handle by reference. What coroutines do
    inside, and what a process does between two awaits, is left open. Coroutines return
    no values here. */
module CompositionMachine {
  import opened Options
  import opened AwaitAlgebra
  import K = KernelState

  datatype Outcome = Returned | Threw(e: int)

  datatype Coro = Coro(bound: bool, done: Option<Outcome>)

  /** A `coroutine` object, with the completion token that it holds. */
  datatype Handle = Handle(coro: nat, latency: nat, token: Option<nat>)

  datatype Kind =
    | Timed
    | Signal(e: nat)
    | Through(h: nat)
    | Composed(cond: Condition, total: nat, remaining: int)

  /** Where the token of a node is: never asked for, since the node was ready or below a
      ready one; not made yet; waiting for a coroutine, an event or its handler; in the
      queue; or taken from it. */
  datatype Place = Idle | Unreached | Held | InQueue | Taken

  /** A node of an await with its token. The nodes of all awaits are numbered together,
      those of one await in the order in which `await_suspend` and `await_resume` visit
      them, beginning with `root`. A token without handler resumes `proc`; one without
      either is bare. */
  datatype Part = Part(root: nat, parent: Option<nat>, handler: Option<nat>, proc: Option<nat>, kind: Kind,
                       place: Place, latency: nat, time: int, error: Option<int>)

  datatype Seen = Normal | Rethrown(e: int)

  /** `Took` has what leaves `step`, if anything; `Woke` has the root that the process
      has been waiting for and the handles that it has visited; `Visited` is the
      `await_resume` that `async` does; `Refused` is an await of a handle that is
      already being awaited. */
  datatype Happening =
    | Registered(h: nat)
    | Visited(h: nat, seen: Seen)
    | Refused(proc: Option<nat>)
    | Ended(c: nat, o: Outcome)
    | Took(i: nat, at: int, escaped: Option<int>)
    | Woke(root: nat, seen: Seen, visited: set<nat>)

  /** `waits` tells for each process for which root it has been suspended. */
  datatype World = World(now: int, coros: seq<Coro>, handles: seq<Handle>, parts: seq<Part>,
                         waits: seq<Option<nat>>, log: seq<Happening>)

  // ----- well-formed references -----

  predicate HandleWF(w: World, x: Handle) {
    x.coro < |w.coros| && (x.token.Some? ==> x.token.value < |w.parts|)
  }

  predicate PartWF(w: World, i: nat)
    requires i < |w.parts|
  {
    var x := w.parts[i];
    && x.root <= i && (x.parent.None? <==> x.root == i)
    && (x.parent.Some? ==> x.parent.value < i && w.parts[x.parent.value].kind.Composed?
                           && w.parts[x.parent.value].root == x.root && w.parts[x.parent.value].proc == x.proc)
    && (x.handler.Some? ==> x.handler == x.parent)
    && (x.kind.Through? ==> x.kind.h < |w.handles|)
    && (x.proc.Some? ==> x.proc.value < |w.waits|)
    && (x.proc.None? ==> x.parent.None?)
  }

  ghost predicate WF(w: World) {
    && (forall h | 0 <= h < |w.handles| :: HandleWF(w, w.handles[h]))
    && (forall i | 0 <= i < |w.parts| :: PartWF(w, i))
  }

  // ----- await_resume -----

  datatype Visits = Visits(handles: seq<Handle>, error: Option<int>, visited: set<nat>)

  /** The exception in the token that a handle holds. */
  function TokenError(parts: seq<Part>, x: Handle): Option<int> {
    if x.token.Some? && x.token.value < |parts| then parts[x.token.value].error else None
  }

  function Cleared(handles: seq<Handle>, h: nat): seq<Handle>
    requires h < |handles|
  {
    handles[h := handles[h].(token := None)]
  }

  predicate LeafOf(parts: seq<Part>, i: nat, r: nat) {
    i < |parts| && parts[i].root == r && parts[i].kind.Through?
  }

  /** The `await_resume` of the await with root `r`, from node `i` on: each handle gives
      up the token it holds, whether or not this await has suspended on it; an exception
      ends the visits. */
  function VisitFrom(parts: seq<Part>, handles: seq<Handle>, r: nat, i: nat): Visits
    requires forall j | 0 <= j < |parts| && parts[j].kind.Through? :: parts[j].kind.h < |handles|
    decreases |parts| - i
  {
    if i >= |parts| then Visits(handles, None, {})
    else if LeafOf(parts, i, r) then
      var h := parts[i].kind.h;
      var e := TokenError(parts, handles[h]);
      if e.Some? then Visits(Cleared(handles, h), e, {h})
      else
        var v := VisitFrom(parts, Cleared(handles, h), r, i + 1);
        v.(visited := v.visited + {h})
    else VisitFrom(parts, handles, r, i + 1)
  }

  function SeenOf(e: Option<int>): Seen {
    if e.Some? then Rethrown(e.value) else Normal
  }

  function Resume(w: World, p: nat, r: nat): World
    requires WF(w) && p < |w.waits|
  {
    assert forall j | 0 <= j < |w.parts| && w.parts[j].kind.Through? :: PartWF(w, j);
    var v := VisitFrom(w.parts, w.handles, r, 0);
    w.(handles := v.handles, waits := w.waits[p := None], log := w.log + [Woke(r, SeenOf(v.error), v.visited)])
  }

  // ----- beginning an await -----

  datatype What =
    | Delay(d: nat)
    | Until(t: int)
    | Wait(e: nat, latency: nat)
    | Await(h: nat)
    | Group(cond: Condition, latency: nat)

  /** An awaitable is the list of its nodes, each before its children and these in order. */
  datatype Node = Node(parent: Option<nat>, what: What)

  /** `j` is `g` or lies below it. */
  predicate Below(nodes: seq<Node>, j: nat, g: nat)
    requires j < |nodes|
    decreases j
  {
    j == g || (nodes[j].parent.Some? && nodes[j].parent.value < j && Below(nodes, nodes[j].parent.value, g))
  }

  predicate IsTree(nodes: seq<Node>) {
    && |nodes| > 0 && nodes[0].parent.None?
    && forall i | 0 < i < |nodes| :: IsChild(nodes, i)
  }

  predicate IsChild(nodes: seq<Node>, i: nat)
    requires 0 < i < |nodes|
  {
    nodes[i].parent.Some? && nodes[i].parent.value < i && nodes[nodes[i].parent.value].what.Group?
    && Below(nodes, i - 1, nodes[i].parent.value)
  }

  predicate Knows(w: World, nodes: seq<Node>) {
    forall i | 0 <= i < |nodes| :: nodes[i].what.Await? ==> nodes[i].what.h < |w.handles|
  }

  /** Number `k` will be that of a child of node `g`. */
  predicate IsKid(w: World, nodes: seq<Node>, k: nat, g: nat) {
    |w.parts| + g < k < |w.parts| + |nodes| && nodes[k - |w.parts|].parent == Some(g)
  }

  ghost function Kids(w: World, nodes: seq<Node>, g: nat): set<nat> {
    set k: nat | k < |w.parts| + |nodes| && IsKid(w, nodes, k, g)
  }

  ghost predicate Ready(w: World, nodes: seq<Node>, i: nat)
    requires WF(w) && Knows(w, nodes) && i < |nodes|
    decreases |nodes| - i, 1
  {
    match nodes[i].what
    case Delay(_) => false
    case Until(t) => w.now >= t
    case Wait(_, _) => false
    case Await(h) =>
      assert HandleWF(w, w.handles[h]);
      w.coros[w.handles[h].coro].done.Some?
    case Group(cond, _) => K.Holds(cond, |Kids(w, nodes, i)|, |Waiting(w, nodes, i)|)
  }

  /** The children of node `g` that are not ready. */
  ghost function Waiting(w: World, nodes: seq<Node>, g: nat): set<nat>
    requires WF(w) && Knows(w, nodes) && g < |nodes|
    decreases |nodes| - g, 0
  {
    set k: nat | k < |w.parts| + |nodes| && IsKid(w, nodes, k, g) && !Ready(w, nodes, k - |w.parts|)
  }

  /** Only in a composition that is suspended on itself are children suspended on. */
  ghost predicate Wanted(w: World, nodes: seq<Node>, i: nat)
    requires WF(w) && Knows(w, nodes) && i < |nodes|
    decreases i
  {
    && !Ready(w, nodes, i)
    && (nodes[i].parent.Some? && nodes[i].parent.value < i ==> Wanted(w, nodes, nodes[i].parent.value))
  }

  ghost function KindOf(w: World, nodes: seq<Node>, i: nat): Kind
    requires WF(w) && Knows(w, nodes) && i < |nodes|
  {
    match nodes[i].what
    case Delay(_) => Timed
    case Until(_) => Timed
    case Wait(e, _) => Signal(e)
    case Await(h) => Through(h)
    case Group(cond, _) => Composed(cond, |Kids(w, nodes, i)|, |Waiting(w, nodes, i)|)
  }

  function LatencyOf(w: World, nodes: seq<Node>, i: nat): nat
    requires Knows(w, nodes) && i < |nodes|
  {
    match nodes[i].what
    case Delay(d) => d
    case Until(t) => if t > w.now then t - w.now else 0
    case Wait(_, latency) => latency
    case Await(h) => w.handles[h].latency
    case Group(_, latency) => latency
  }

  ghost function Made(w: World, nodes: seq<Node>, p: nat, i: nat): Part
    requires WF(w) && Knows(w, nodes) && i < |nodes|
  {
    var n, g := |w.parts|, nodes[i].parent;
    var parent := if g.Some? then Some(n + g.value) else None;
    Part(n, parent, parent, Some(p), KindOf(w, nodes, i), if Wanted(w, nodes, i) then Unreached else Idle,
         LatencyOf(w, nodes, i), 0, None)
  }

  ghost function BindAll(w: World, nodes: seq<Node>): seq<Coro>
    requires Knows(w, nodes)
  {
    seq(|w.coros|, c requires 0 <= c < |w.coros| => w.coros[c].(bound := w.coros[c].bound ||
      exists i :: 0 <= i < |nodes| && nodes[i].what.Await? && w.handles[nodes[i].what.h].coro == c))
  }

  /** `await_bind` and `await_ready`. */
  ghost function Plant(w: World, nodes: seq<Node>, p: nat): World
    requires WF(w) && Knows(w, nodes)
  {
    w.(coros := BindAll(w, nodes),
       parts := w.parts + seq(|nodes|, i requires 0 <= i < |nodes| => Made(w, nodes, p, i)))
  }

  /** `g` lies above `j`. */
  predicate Above(parts: seq<Part>, j: nat, g: nat)
    requires j < |parts|
    decreases j
  {
    parts[j].parent.Some? && parts[j].parent.value < j
    && (parts[j].parent.value == g || Above(parts, parts[j].parent.value, g))
  }

  /** The handle of `f` is being awaited already: the exception leaves `await_suspend` of
      all compositions above `f`, before they have got their handlers, and reaches the
      process. What was suspended on before stays so. */
  function Refuse(w: World, f: nat): World
    requires f < |w.parts|
  {
    var p := w.parts[f].proc;
    w.(parts := seq(|w.parts|, i requires 0 <= i < |w.parts| =>
         if Above(w.parts, f, i) then w.parts[i].(handler := None) else w.parts[i]),
       waits := if p.Some? && p.value < |w.waits| then w.waits[p.value := None] else w.waits,
       log := w.log + [Refused(p)])
  }

  /** `await_suspend` of one node, for a composition before its children. */
  function Suspend(w: World, i: nat): World
    requires WF(w) && i < |w.parts|
  {
    assert PartWF(w, i);
    var x := w.parts[i];
    match x.kind
    case Timed => w.(parts := w.parts[i := x.(place := InQueue, time := w.now + x.latency)])
    case Through(h) => w.(parts := w.parts[i := x.(place := Held)],
                          handles := w.handles[h := w.handles[h].(token := Some(i))],
                          log := w.log + [Registered(h)])
    case _ => w.(parts := w.parts[i := x.(place := Held)])
  }

  predicate IsAwaited(w: World, i: nat)
    requires WF(w) && i < |w.parts|
  {
    assert PartWF(w, i);
    w.parts[i].kind.Through? && w.handles[w.parts[i].kind.h].token.Some?
  }

  lemma SuspendWF(w: World, i: nat)
    requires WF(w) && i < |w.parts|
    ensures var r := Suspend(w, i);
      WF(r) && |r.handles| == |w.handles| && |r.parts| == |w.parts| && |r.waits| == |w.waits|
  {
    var r := Suspend(w, i);
    assert PartWF(w, i);
    forall h | 0 <= h < |r.handles| ensures HandleWF(r, r.handles[h]) { assert HandleWF(w, w.handles[h]); }
    forall j | 0 <= j < |r.parts| ensures PartWF(r, j) { assert PartWF(w, j); }
  }

  lemma RefuseWF(w: World, f: nat)
    requires WF(w) && f < |w.parts|
    ensures WF(Refuse(w, f))
  {
    var r := Refuse(w, f);
    forall h | 0 <= h < |r.handles| ensures HandleWF(r, r.handles[h]) { assert HandleWF(w, w.handles[h]); }
    forall j | 0 <= j < |r.parts| ensures PartWF(r, j) { assert PartWF(w, j); }
  }

  /** `await_suspend` of all nodes that are wanted, from node `i` on. */
  function SuspendFrom(w: World, i: nat): (r: World)
    requires WF(w)
    ensures WF(r) && |r.handles| == |w.handles| && |r.parts| == |w.parts| && |r.waits| == |w.waits|
    decreases |w.parts| - i
  {
    if i >= |w.parts| then w
    else if !w.parts[i].place.Unreached? then SuspendFrom(w, i + 1)
    else if IsAwaited(w, i) then
      RefuseWF(w, i);
      Refuse(w, i)
    else
      SuspendWF(w, i);
      SuspendFrom(Suspend(w, i), i + 1)
  }

  lemma PlantWF(w: World, nodes: seq<Node>, p: nat)
    requires WF(w) && Knows(w, nodes) && IsTree(nodes) && p < |w.waits|
    ensures WF(Plant(w, nodes, p))
  {
    var r, n := Plant(w, nodes, p), |w.parts|;
    forall h | 0 <= h < |r.handles| ensures HandleWF(r, r.handles[h]) { assert HandleWF(w, w.handles[h]); }
    forall j | 0 <= j < |r.parts| ensures PartWF(r, j) {
      if j < n {
        assert PartWF(w, j);
      } else if j > n {
        assert IsChild(nodes, j - n);
      }
    }
  }

  function WaitFor(w: World, p: nat, r: nat): World
    requires p < |w.waits|
  {
    w.(waits := w.waits[p := Some(r)])
  }

  lemma WaitWF(w: World, p: nat, r: nat)
    requires WF(w) && p < |w.waits|
    ensures WF(WaitFor(w, p, r))
  {
    var w1 := WaitFor(w, p, r);
    forall h | 0 <= h < |w1.handles| ensures HandleWF(w1, w1.handles[h]) { assert HandleWF(w, w.handles[h]); }
    forall j | 0 <= j < |w1.parts| ensures PartWF(w1, j) { assert PartWF(w, j); }
  }

  /** Process `p` awaits `nodes`. */
  ghost function Begin(w: World, p: nat, nodes: seq<Node>): World
    requires WF(w) && Knows(w, nodes) && IsTree(nodes) && p < |w.waits|
  {
    PlantWF(w, nodes, p);
    var w1 := Plant(w, nodes, p);
    if Ready(w, nodes, 0) then Resume(w1, p, |w.parts|)
    else
      WaitWF(w1, p, |w.parts|);
      SuspendFrom(WaitFor(w1, p, |w.parts|), |w.parts|)
  }

  // ----- binding from outside, and async -----

  function BareWorld(w: World, h: nat): World
    requires WF(w) && h < |w.handles|
  {
    assert HandleWF(w, w.handles[h]);
    var c := w.handles[h].coro;
    w.(coros := w.coros[c := w.coros[c].(bound := true)],
       parts := w.parts + [Part(|w.parts|, None, None, None, Through(h), Unreached, w.handles[h].latency, 0, None)])
  }

  lemma BareWF(w: World, h: nat)
    requires WF(w) && h < |w.handles|
    ensures WF(BareWorld(w, h))
  {
    var r := BareWorld(w, h);
    forall g | 0 <= g < |r.handles| ensures HandleWF(r, r.handles[g]) { assert HandleWF(w, w.handles[g]); }
    forall j | 0 <= j < |r.parts| ensures PartWF(r, j) { assert j < |w.parts| ==> PartWF(w, j); }
  }

  /** The coroutine is bound, and unless it is complete its completion token is made,
      for nobody. */
  function Launch(w: World, h: nat): (r: World)
    requires WF(w) && h < |w.handles|
    ensures WF(r) && |r.handles| == |w.handles|
  {
    assert HandleWF(w, w.handles[h]);
    BareWF(w, h);
    if w.coros[w.handles[h].coro].done.Some? then w else SuspendFrom(BareWorld(w, h), |w.parts|)
  }

  function Visit(w: World, h: nat): World
    requires WF(w) && h < |w.handles|
  {
    w.(handles := Cleared(w.handles, h), log := w.log + [Visited(h, SeenOf(TokenError(w.parts, w.handles[h])))])
  }

  /** `async` launches and then at once gives up the completion token. */
  function Async(w: World, h: nat): World
    requires WF(w) && h < |w.handles|
  {
    assert HandleWF(w, w.handles[h]);
    if w.coros[w.handles[h].coro].done.None? && w.handles[h].token.Some? then Launch(w, h)
    else Visit(Launch(w, h), h)
  }

  // ----- ends, events and tokens -----

  predicate WaitsFor(w: World, x: Part, c: nat) {
    x.kind.Through? && x.kind.h < |w.handles| && w.handles[x.kind.h].coro == c && x.place.Held?
  }

  function ErrorOf(o: Outcome): Option<int> {
    if o.Threw? then Some(o.e) else None
  }

  /** A coroutine ends: its completion tokens get the exception and their time, and are
      queued. */
  function End(w: World, c: nat, o: Outcome): World
    requires c < |w.coros|
  {
    w.(coros := w.coros[c := w.coros[c].(done := Some(o))],
       parts := seq(|w.parts|, i requires 0 <= i < |w.parts| =>
         var x := w.parts[i];
         if WaitsFor(w, x, c) then x.(place := InQueue, time := w.now + x.latency, error := ErrorOf(o)) else x),
       log := w.log + [Ended(c, o)])
  }

  /** An event wakes: the tokens registered with it get their time and are queued. */
  function Signalled(w: World, e: nat): World {
    w.(parts := seq(|w.parts|, i requires 0 <= i < |w.parts| =>
         var x := w.parts[i];
         if x.kind == Signal(e) && x.place.Held? then x.(place := InQueue, time := w.now + x.latency) else x))
  }

  /** Whether `step` is left by the exception in this token. */
  predicate Reports(x: Part) {
    x.handler.Some? || x.proc.None?
  }

  /** The handler of `y` takes token `x`: it counts first, then rethrows an exception,
      and else lets the output token go when the condition holds. */
  function Count(y: Part, x: Part): Part
    requires y.kind.Composed?
  {
    var k := y.kind.(remaining := y.kind.remaining - 1);
    if x.error.None? && y.place.Held? && K.Holds(k.cond, k.total, k.remaining) then
      y.(kind := k, place := InQueue, time := y.latency + x.time)
    else y.(kind := k)
  }

  /** `step` pops the token of `i`, and gives it to its handler, if it has one. */
  function Pop(w: World, i: nat): World
    requires WF(w) && i < |w.parts|
  {
    assert PartWF(w, i);
    var x := w.parts[i];
    var now := if x.time > w.now then x.time else w.now;
    var parts := w.parts[i := x.(place := Taken)];
    w.(now := now,
       parts := if x.handler.Some? then parts[x.handler.value := Count(parts[x.handler.value], x)] else parts,
       log := w.log + [Took(i, now, if Reports(x) then x.error else None)])
  }

  lemma PopWF(w: World, i: nat)
    requires WF(w) && i < |w.parts|
    ensures WF(Pop(w, i)) && |Pop(w, i).waits| == |w.waits|
  {
    var r := Pop(w, i);
    assert PartWF(w, i);
    forall g | 0 <= g < |r.handles| ensures HandleWF(r, r.handles[g]) { assert HandleWF(w, w.handles[g]); }
    forall j | 0 <= j < |r.parts| ensures PartWF(r, j) { assert PartWF(w, j); }
  }

  /** The process that the token of `i` resumes. */
  function Resumed(x: Part): Option<nat> {
    if x.handler.None? then x.proc else None
  }

  /** A process that is resumed goes on with the await for which it is suspended. */
  function Take(w: World, i: nat): World
    requires WF(w) && i < |w.parts|
  {
    PopWF(w, i);
    assert PartWF(w, i);
    var p := Resumed(w.parts[i]);
    if p.Some? && w.waits[p.value].Some? then Resume(Pop(w, i), p.value, w.waits[p.value].value) else Pop(w, i)
  }

  // ----- runs -----

  predicate IsBare(x: Part) {
    x.proc.None? && x.error.Some?
  }

  /** Tokens are popped in the order of time; but as long as a bare exception token is
      queued the comparator is no ordering, and any token may be on top. */
  ghost predicate IsNext(w: World, i: nat) {
    && i < |w.parts| && w.parts[i].place.InQueue?
    && ((forall j | 0 <= j < |w.parts| && w.parts[j].place.InQueue? :: w.parts[i].time <= w.parts[j].time)
        || exists j :: 0 <= j < |w.parts| && w.parts[j].place.InQueue? && IsBare(w.parts[j]))
  }

  datatype Action =
    | Ticks(t: int)
    | Begins(p: nat, nodes: seq<Node>)
    | Launches(h: nat)
    | Asyncs(h: nat)
    | Ends(c: nat, o: Outcome)
    | Wakes(e: nat)
    | Takes(i: nat)

  /** A process that is resumed has not ended. */
  ghost predicate Enabled(w: World, a: Action) {
    && WF(w)
    && match a
       case Ticks(t) => w.now <= t && forall j | 0 <= j < |w.parts| && w.parts[j].place.InQueue? :: t <= w.parts[j].time
       case Begins(p, nodes) => p < |w.waits| && w.waits[p].None? && IsTree(nodes) && Knows(w, nodes)
       case Launches(h) => h < |w.handles|
       case Asyncs(h) => h < |w.handles|
       case Ends(c, _) => c < |w.coros| && w.coros[c].bound && w.coros[c].done.None?
       case Wakes(_) => true
       case Takes(i) =>
         && IsNext(w, i) && PartWF(w, i)
         && (Resumed(w.parts[i]).Some? ==> w.waits[Resumed(w.parts[i]).value].Some?)
  }

  ghost function Do(w: World, a: Action): World
    requires Enabled(w, a)
  {
    match a
    case Ticks(t) => w.(now := t)
    case Begins(p, nodes) => Begin(w, p, nodes)
    case Launches(h) => Launch(w, h)
    case Asyncs(h) => Async(w, h)
    case Ends(c, o) => End(w, c, o)
    case Wakes(e) => Signalled(w, e)
    case Takes(i) => Take(w, i)
  }

  ghost predicate Runs(w: World, acts: seq<Action>, w': World)
    decreases |acts|
  {
    if acts == [] then w' == w else Enabled(w, acts[0]) && Runs(Do(w, acts[0]), acts[1..], w')
  }

  /** Nothing has been awaited yet. */
  ghost predicate Start(w: World) {
    && w.parts == [] && w.log == []
    && (forall c | 0 <= c < |w.coros| :: w.coros[c].done.None?)
    && (forall h | 0 <= h < |w.handles| :: w.handles[h].coro < |w.coros| && w.handles[h].token.None?)
    && (forall p | 0 <= p < |w.waits| :: w.waits[p].None?)
  }

  ghost predicate Reached(w: World) {
    exists w0, acts :: Start(w0) && Runs(w0, acts, w)
  }
}
