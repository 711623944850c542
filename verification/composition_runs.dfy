/** Runs in which what compositions do with exceptions can be seen, one for each case. */
module CompositionRuns {
  import opened Options
  import A = AwaitAlgebra
  import opened CompositionMachine
  import opened CompositionInvariant
  import opened CompositionSteps
  import opened CompositionBegin
  import opened CompositionErrors
  import K = KernelState

  /** Two coroutines with one handle each, and two processes. */
  const World0 := World(0, [Coro(false, None), Coro(false, None)], [Handle(0, 0, None), Handle(1, 9, None)], [],
                        [None, None], [])

  ghost predicate Run(acts: seq<Action>, w: World) {
    Runs(World0, acts, w)
  }

  lemma {:induction false} RunsMore(a: World, acts: seq<Action>, b: World, x: Action)
    requires Runs(a, acts, b) && Enabled(b, x)
    ensures Runs(a, acts + [x], Do(b, x))
    decreases |acts|
  {
    if acts == [] {
      assert [x][1..] == [];
    } else {
      RunsMore(Do(a, acts[0]), acts[1..], b, x);
      assert (acts + [x])[1..] == acts[1..] + [x];
    }
  }

  lemma World0Starts()
    ensures Start(World0) && Run([], World0)
  {
  }

  lemma RunWF(acts: seq<Action>, w: World)
    requires Run(acts, w)
    ensures WF(w) && Inv(w)
  {
    World0Starts();
    StartOk(World0);
    RunsOk(World0, acts, w);
  }

  lemma More(acts: seq<Action>, w: World, x: Action)
    requires Run(acts, w) && Enabled(w, x)
    ensures Run(acts + [x], Do(w, x)) && WF(Do(w, x))
  {
    RunsMore(World0, acts, w, x);
    RunWF(acts + [x], Do(w, x));
  }

  // ----- a delay and the two coroutines, by reference -----

  function Trio(cond: A.Condition): seq<Node> {
    [Node(None, Group(cond, 0)), Node(Some(0), Delay(5)), Node(Some(0), Await(0)), Node(Some(0), Await(1))]
  }

  function TrioParts(n: nat, p: nat, now: int, cond: A.Condition): seq<Part> {
    [Part(n, None, None, Some(p), Composed(cond, 3, 3), Held, 0, 0, None),
     Part(n, Some(n), Some(n), Some(p), Timed, InQueue, 5, now + 5, None),
     Part(n, Some(n), Some(n), Some(p), Through(0), Held, 0, 0, None),
     Part(n, Some(n), Some(n), Some(p), Through(1), Held, 9, 0, None)]
  }

  /** Neither coroutine has ended. */
  predicate BothRun(w: World) {
    && |w.handles| == 2 && w.handles[0] == Handle(0, 0, w.handles[0].token)
    && w.handles[1] == Handle(1, 9, w.handles[1].token)
    && |w.coros| == 2 && w.coros[0].done.None? && w.coros[1].done.None?
  }

  predicate BothFree(w: World) {
    BothRun(w) && w.handles == [Handle(0, 0, None), Handle(1, 9, None)]
  }

  function TrioBegun(w: World, p: nat, cond: A.Condition): World
    requires BothFree(w) && p < |w.waits|
  {
    var n := |w.parts|;
    w.(coros := [Coro(true, None), Coro(true, None)],
       handles := [Handle(0, 0, Some(n + 2)), Handle(1, 9, Some(n + 3))],
       parts := w.parts + TrioParts(n, p, w.now, cond), waits := w.waits[p := Some(n)],
       log := w.log + [Registered(0), Registered(1)])
  }

  function Unreach(parts: seq<Part>): seq<Part> {
    seq(|parts|, i requires 0 <= i < |parts| => parts[i].(place := Unreached, time := 0))
  }

  lemma TrioTree(w: World, cond: A.Condition)
    requires |w.handles| == 2
    ensures IsTree(Trio(cond)) && Knows(w, Trio(cond))
  {
    var nodes := Trio(cond);
    assert IsChild(nodes, 1) && IsChild(nodes, 2) && IsChild(nodes, 3);
  }

  lemma TrioReady(w: World, cond: A.Condition)
    requires WF(w) && BothRun(w) && Knows(w, Trio(cond))
    ensures var nodes, n := Trio(cond), |w.parts|;
      && Kids(w, nodes, 0) == {n + 1, n + 2, n + 3} == Waiting(w, nodes, 0)
      && forall i | 0 <= i < 4 :: !Ready(w, nodes, i)
  {
    var nodes, n := Trio(cond), |w.parts|;
    assert !Ready(w, nodes, 1) && !Ready(w, nodes, 2) && !Ready(w, nodes, 3);
    assert IsKid(w, nodes, n + 1, 0) && IsKid(w, nodes, n + 2, 0) && IsKid(w, nodes, n + 3, 0);
    assert Kids(w, nodes, 0) == {n + 1, n + 2, n + 3};
    assert Waiting(w, nodes, 0) == {n + 1, n + 2, n + 3};
  }

  lemma TrioPlanted(w: World, p: nat, cond: A.Condition)
    requires WF(w) && BothRun(w) && p < |w.waits| && Knows(w, Trio(cond))
    ensures Plant(w, Trio(cond), p) ==
      w.(coros := [Coro(true, None), Coro(true, None)],
         parts := w.parts + Unreach(TrioParts(|w.parts|, p, w.now, cond)))
  {
    var nodes, n := Trio(cond), |w.parts|;
    TrioReady(w, cond);
    var m := Plant(w, nodes, p);
    assert m.coros[0].bound by { assert nodes[2].what.Await?; }
    assert m.coros[1].bound by { assert nodes[3].what.Await?; }
    assert m.coros == [Coro(true, None), Coro(true, None)];
    assert Wanted(w, nodes, 0) && Wanted(w, nodes, 1) && Wanted(w, nodes, 2) && Wanted(w, nodes, 3);
    var parts := Unreach(TrioParts(n, p, w.now, cond));
    assert Made(w, nodes, p, 0) == parts[0];
    assert Made(w, nodes, p, 1) == parts[1];
    assert Made(w, nodes, p, 2) == parts[2];
    assert Made(w, nodes, p, 3) == parts[3];
    assert m.parts == w.parts + parts;
  }

  lemma SuspendStep(w: World, i: nat)
    requires WF(w) && i < |w.parts| && w.parts[i].place.Unreached? && !IsAwaited(w, i)
    ensures WF(Suspend(w, i)) && SuspendFrom(w, i) == SuspendFrom(Suspend(w, i), i + 1)
  {
    SuspendWF(w, i);
  }

  lemma TrioBegins(w: World, p: nat, cond: A.Condition)
    requires WF(w) && BothFree(w) && p < |w.waits|
    ensures IsTree(Trio(cond)) && Knows(w, Trio(cond)) && Begin(w, p, Trio(cond)) == TrioBegun(w, p, cond)
  {
    var n, now := |w.parts|, w.now;
    TrioTree(w, cond);
    TrioPlanted(w, p, cond);
    TrioReady(w, cond);
    PlantWF(w, Trio(cond), p);
    var m := WaitFor(Plant(w, Trio(cond), p), p, n);
    WaitWF(Plant(w, Trio(cond), p), p, n);
    assert Begin(w, p, Trio(cond)) == SuspendFrom(m, n);
    var x := TrioParts(n, p, now, cond);
    SuspendStep(m, n);
    var m1 := Suspend(m, n);
    SuspendStep(m1, n + 1);
    var m2 := Suspend(m1, n + 1);
    SuspendStep(m2, n + 2);
    var m3 := Suspend(m2, n + 2);
    SuspendStep(m3, n + 3);
    var m4 := Suspend(m3, n + 3);
    assert m4.parts == w.parts + x;
    assert m4.log == w.log + [Registered(0), Registered(1)];
    assert m4.handles == [Handle(0, 0, Some(n + 2)), Handle(1, 9, Some(n + 3))];
  }

  /** What the process sees that awaits the trio with root `r`. */
  lemma TrioVisit(w: World, r: nat)
    requires WF(w) && |w.handles| == 2 && r + 3 < |w.parts|
    requires w.parts[r + 2].kind == Through(0) && w.parts[r + 3].kind == Through(1)
    requires forall j: nat :: LeafOf(w.parts, j, r) <==> j == r + 2 || j == r + 3
    ensures AllKnown(w.parts, w.handles)
    ensures var v, a, b :=
        VisitFrom(w.parts, w.handles, r, 0), TokenError(w.parts, w.handles[0]), TokenError(w.parts, w.handles[1]);
      && v.error == (if a.Some? then a else b) && v.visited == (if a.Some? then {0} else {0, 1})
      && v.handles == [w.handles[0].(token := None), if a.Some? then w.handles[1] else w.handles[1].(token := None)]
  {
    HandlesKnown(w);
    VisitSpec(w.parts, w.handles, r, 0);
    var v, a := VisitFrom(w.parts, w.handles, r, 0), TokenError(w.parts, w.handles[0]);
    assert LeafOf(w.parts, r + 2, r) && LeafOf(w.parts, r + 3, r);
    if v.error.Some? {
      var j: nat :| StopsAt(w.parts, w.handles, r, 0, j, v.error) && VisitedFrom(w.parts, v.visited, r, 0, j + 1);
      assert j == if a.Some? then r + 2 else r + 3;
      VisitedPair(w, r, v.visited, j + 1);
    } else {
      VisitedPair(w, r, v.visited, |w.parts|);
    }
  }

  lemma VisitedPair(w: World, r: nat, visited: set<nat>, b: nat)
    requires r + 2 < b && r + 3 < |w.parts| && VisitedFrom(w.parts, visited, r, 0, b)
    requires w.parts[r + 2].kind == Through(0) && w.parts[r + 3].kind == Through(1)
    requires forall j: nat :: LeafOf(w.parts, j, r) <==> j == r + 2 || j == r + 3
    ensures visited == if b == r + 3 then {0} else {0, 1}
  {
    forall h ensures h in visited <==> h == 0 || (h == 1 && b > r + 3) {
      if h == 0 { assert 0 <= r + 2 < b && LeafOf(w.parts, r + 2, r) && w.parts[r + 2].kind.h == h; }
      if h == 1 && b > r + 3 { assert 0 <= r + 3 < b && LeafOf(w.parts, r + 3, r) && w.parts[r + 3].kind.h == h; }
    }
  }

  // ----- a look at one coroutine, by reference -----

  /** An any_of that is ready at once. */
  function Look(h: nat): seq<Node> {
    [Node(None, Group(A.AnyOf, 0)), Node(Some(0), Await(h)), Node(Some(0), Until(0))]
  }

  lemma LookReady(w: World, h: nat)
    requires WF(w) && h < |w.handles| && w.now >= 0
    ensures IsTree(Look(h)) && Knows(w, Look(h)) && Ready(w, Look(h), 0)
  {
    var nodes, n := Look(h), |w.parts|;
    assert IsChild(nodes, 1) && IsChild(nodes, 2);
    assert Ready(w, nodes, 2);
    assert IsKid(w, nodes, n + 1, 0) && IsKid(w, nodes, n + 2, 0);
    assert Kids(w, nodes, 0) == {n + 1, n + 2};
    SubsetSize(Waiting(w, nodes, 0), {n + 1});
  }

  /** It shows what the token in the handle carries, and takes the token. */
  lemma LookSees(w: World, p: nat, h: nat)
    requires WF(w) && h < |w.handles| && w.now >= 0 && p < |w.waits|
    ensures IsTree(Look(h)) && Knows(w, Look(h))
    ensures var r := Begin(w, p, Look(h));
      && |r.parts| == |w.parts| + 3 && r.parts[..|w.parts|] == w.parts && r.handles == Cleared(w.handles, h)
      && (forall i | |w.parts| <= i < |r.parts| :: r.parts[i].root == |w.parts| && r.parts[i].place.Idle?)
      && r.now == w.now && |r.coros| == |w.coros| && r.waits == w.waits[p := None]
      && (forall c | 0 <= c < |w.coros| && w.coros[c].bound :: r.coros[c] == w.coros[c])
      && r.log == w.log + [Woke(|w.parts|, SeenOf(TokenError(w.parts, w.handles[h])), {h})]
  {
    var nodes, n := Look(h), |w.parts|;
    LookReady(w, h);
    PlantWF(w, nodes, p);
    var m := Plant(w, nodes, p);
    assert forall i | 0 <= i < 3 :: m.parts[n + i] == Made(w, nodes, p, i);
    assert !Wanted(w, nodes, 0) && !Wanted(w, nodes, 1) && !Wanted(w, nodes, 2);
    LookVisits(w, m, h);
    assert m.parts[..n] == w.parts;
  }

  lemma LookVisits(w: World, m: World, h: nat)
    requires WF(w) && WF(m) && m.handles == w.handles && |m.parts| == |w.parts| + 3 && h < |w.handles|
    requires forall i | 0 <= i < |w.parts| :: m.parts[i] == w.parts[i]
    requires var n := |w.parts|;
      && m.parts[n].root == m.parts[n + 1].root == m.parts[n + 2].root == n
      && !m.parts[n].kind.Through? && m.parts[n + 1].kind == Through(h) && !m.parts[n + 2].kind.Through?
      && m.parts[n + 1].error.None? && m.parts[n].error.None? && m.parts[n + 2].error.None?
    ensures AllKnown(m.parts, m.handles)
    ensures VisitFrom(m.parts, m.handles, |w.parts|, 0) ==
      Visits(Cleared(w.handles, h), TokenError(w.parts, w.handles[h]), {h})
  {
    var n := |w.parts|;
    HandlesKnown(m);
    VisitSpec(m.parts, m.handles, n, 0);
    var v := VisitFrom(m.parts, m.handles, n, 0);
    forall j: nat ensures LeafOf(m.parts, j, n) <==> j == n + 1 { assert j < n ==> PartWF(w, j); }
    assert HandleWF(w, w.handles[h]);
    assert TokenError(m.parts, m.handles[h]) == TokenError(w.parts, w.handles[h]);
    if v.error.Some? {
      var j: nat :| StopsAt(m.parts, m.handles, n, 0, j, v.error) && VisitedFrom(m.parts, v.visited, n, 0, j + 1);
      VisitedOne(m, n, h, v.visited, j + 1);
    } else {
      VisitedOne(m, n, h, v.visited, |m.parts|);
    }
    assert v.handles == Cleared(w.handles, h);
  }

  lemma VisitedOne(w: World, r: nat, h: nat, visited: set<nat>, b: nat)
    requires r + 1 < b && r + 1 < |w.parts| && VisitedFrom(w.parts, visited, r, 0, b)
    requires w.parts[r + 1].kind == Through(h)
    requires forall j: nat :: LeafOf(w.parts, j, r) <==> j == r + 1
    ensures visited == {h}
  {
    forall g ensures g in visited <==> g == h {
      if g == h { assert 0 <= r + 1 < b && LeafOf(w.parts, r + 1, r) && w.parts[r + 1].kind.h == g; }
    }
  }

  // ----- the runs -----

  const Thrown7 := Threw(7)

  const Thrown8 := Threw(8)

  lemma Began(cond: A.Condition) returns (acts: seq<Action>)
    ensures Run(acts, TrioBegun(World0, 0, cond)) && WF(TrioBegun(World0, 0, cond))
  {
    World0Starts();
    RunWF([], World0);
    TrioBegins(World0, 0, cond);
    More([], World0, Begins(0, Trio(cond)));
    acts := [] + [Begins(0, Trio(cond))];
  }

  /** The delay is over, and its token has been taken. */
  function TimedOut(cond: A.Condition): World {
    var w, fired := TrioBegun(World0, 0, cond), cond.AnyOf?;
    var root := w.parts[0].(kind := Composed(cond, 3, 2), place := if fired then InQueue else Held,
                            time := if fired then 5 else 0);
    w.(now := 5, parts := [root, w.parts[1].(place := Taken), w.parts[2], w.parts[3]],
       log := w.log + [Took(1, 5, None)])
  }

  lemma TimerFirst(cond: A.Condition) returns (acts: seq<Action>)
    ensures Run(acts, TimedOut(cond)) && WF(TimedOut(cond))
  {
    acts := Began(cond);
    var w := TrioBegun(World0, 0, cond);
    assert IsNext(w, 1);
    assert Pop(w, 1).parts == TimedOut(cond).parts;
    assert Do(w, Takes(1)) == TimedOut(cond);
    More(acts, w, Takes(1));
    acts := acts + [Takes(1)];
  }

  lemma LeavesOfTrio(w: World)
    requires |w.parts| >= 4 && w.parts[0].root == w.parts[1].root == w.parts[2].root == w.parts[3].root == 0
    requires !w.parts[0].kind.Through? && !w.parts[1].kind.Through?
    requires w.parts[2].kind.Through? && w.parts[3].kind.Through?
    requires forall i | 4 <= i < |w.parts| :: w.parts[i].root != 0
    ensures forall j: nat :: LeafOf(w.parts, j, 0) <==> j == 2 || j == 3
  {
  }

  /** Then both coroutines have thrown. */
  const BothThrew := World(5, [Coro(true, Some(Thrown7)), Coro(true, Some(Thrown8))], TimedOut(A.AnyOf).handles,
    [TimedOut(A.AnyOf).parts[0], TimedOut(A.AnyOf).parts[1],
     Part(0, Some(0), Some(0), Some(0), Through(0), InQueue, 0, 5, Some(7)),
     Part(0, Some(0), Some(0), Some(0), Through(1), InQueue, 9, 14, Some(8))],
    [Some(0), None], TimedOut(A.AnyOf).log + [Ended(0, Thrown7), Ended(1, Thrown8)])

  lemma ThrowBoth() returns (acts: seq<Action>)
    ensures Run(acts, BothThrew) && WF(BothThrew)
  {
    acts := TimerFirst(A.AnyOf);
    var w1 := TimedOut(A.AnyOf);
    More(acts, w1, Ends(0, Thrown7));
    var w2 := End(w1, 0, Thrown7);
    assert w2.parts == [w1.parts[0], w1.parts[1], BothThrew.parts[2], w1.parts[3]];
    acts := acts + [Ends(0, Thrown7)];
    More(acts, w2, Ends(1, Thrown8));
    assert End(w2, 1, Thrown8).parts == BothThrew.parts;
    assert End(w2, 1, Thrown8) == BothThrew;
    acts := acts + [Ends(1, Thrown8)];
  }

  lemma SeeFirst() returns (acts: seq<Action>, w: World)
    ensures Run(acts, w) && WF(w) && w.now == 5 && w.parts == BothThrew.parts[0 := BothThrew.parts[0].(place := Taken)]
    ensures w.log == BothThrew.log + [Took(0, 5, None), Woke(0, Rethrown(7), {0})]
    ensures w.handles == [World0.handles[0], BothThrew.handles[1]] && w.waits == [None, None]
  {
    acts := ThrowBoth();
    var w1 := BothThrew;
    assert IsNext(w1, 0);
    var pop := Pop(w1, 0);
    assert pop.parts == w1.parts[0 := w1.parts[0].(place := Taken)];
    PopWF(w1, 0);
    LeavesOfTrio(pop);
    TrioVisit(pop, 0);
    More(acts, w1, Takes(0));
    acts := acts + [Takes(0)];
    w := Take(w1, 0);
  }

  /** The delay wins, both coroutines throw before the process goes on: it sees the first
      exception. The second handle keeps its token, and an any_of that never suspends on it
      shows the other exception. */
  lemma LeftTokenSeen() returns (acts: seq<Action>, w: World)
    ensures Start(World0) && Run(acts, w)
    ensures w.log == [Registered(0), Registered(1), Took(1, 5, None), Ended(0, Thrown7), Ended(1, Thrown8),
                      Took(0, 5, None), Woke(0, Rethrown(7), {0}), Woke(4, Rethrown(8), {1})]
  {
    var w1;
    acts, w1 := SeeFirst();
    LookSees(w1, 0, 1);
    More(acts, w1, Begins(0, Look(1)));
    w := Begin(w1, 0, Look(1));
    acts := acts + [Begins(0, Look(1))];
  }

  /** The world after the process has been resumed by the delay. */
  const GoneOn := TimedOut(A.AnyOf).(parts := TimedOut(A.AnyOf).parts[0 := TimedOut(A.AnyOf).parts[0].(place := Taken)],
                                     handles := World0.handles, waits := [None, None],
                                     log := TimedOut(A.AnyOf).log + [Took(0, 5, None), Woke(0, Normal, {0, 1})])

  lemma DelayResumes() returns (acts: seq<Action>)
    ensures Run(acts, GoneOn) && WF(GoneOn)
  {
    acts := TimerFirst(A.AnyOf);
    var w1 := TimedOut(A.AnyOf);
    assert IsNext(w1, 0);
    var pop := Pop(w1, 0);
    assert pop.parts == w1.parts[0 := w1.parts[0].(place := Taken)];
    PopWF(w1, 0);
    LeavesOfTrio(pop);
    TrioVisit(pop, 0);
    assert Take(w1, 0) == GoneOn;
    More(acts, w1, Takes(0));
    acts := acts + [Takes(0)];
  }

  /** The process goes on first: the exception only leaves `step`. */
  lemma LaterThrowMissed() returns (acts: seq<Action>, w: World)
    ensures Start(World0) && Run(acts, w)
    ensures w.log == [Registered(0), Registered(1), Took(1, 5, None), Took(0, 5, None), Woke(0, Normal, {0, 1}),
                      Ended(0, Thrown7), Took(2, 5, Some(7))]
  {
    acts := DelayResumes();
    More(acts, GoneOn, Ends(0, Thrown7));
    acts := acts + [Ends(0, Thrown7)];
    var w1 := End(GoneOn, 0, Thrown7);
    assert w1.parts == GoneOn.parts[2 := GoneOn.parts[2].(place := InQueue, time := 5, error := Some(7))];
    assert IsNext(w1, 2);
    More(acts, w1, Takes(2));
    w := Take(w1, 2);
    acts := acts + [Takes(2)];
  }

  /** The same handles, in a second any_of, before their coroutines have ended: the first
      has freed them, so both suspend again, and each coroutine has two tokens. */
  lemma HandleSuspendsAgain() returns (acts: seq<Action>, w: World)
    ensures Start(World0) && Run(acts, w) && |w.handles| == 2 && |w.parts| == 8
    ensures w.log == GoneOn.log + [Registered(0), Registered(1)] && Registered(0) in GoneOn.log
    ensures w.handles[0].token == Some(6) && w.parts[2].kind == w.parts[6].kind == Through(0)
    ensures w.parts[2].place == w.parts[6].place == Held
  {
    acts := DelayResumes();
    assert GoneOn.log[0] == Registered(0);
    TrioBegins(GoneOn, 0, A.AnyOf);
    More(acts, GoneOn, Begins(0, Trio(A.AnyOf)));
    w := Begin(GoneOn, 0, Trio(A.AnyOf));
    acts := acts + [Begins(0, Trio(A.AnyOf))];
  }

  /** An all_of after the delay and the second coroutine. */
  lemma TwoOfThree() returns (acts: seq<Action>, w: World)
    ensures Run(acts, w) && WF(w) && w.now == 14 && w.waits == [Some(0), None] && w.handles == TimedOut(A.AllOf).handles
    ensures w.coros == [Coro(true, None), Coro(true, Some(Returned))]
    ensures w.parts == [TimedOut(A.AllOf).parts[0].(kind := Composed(A.AllOf, 3, 1)), TimedOut(A.AllOf).parts[1],
                        TimedOut(A.AllOf).parts[2],
                        Part(0, Some(0), Some(0), Some(0), Through(1), Taken, 9, 14, None)]
    ensures w.log == TimedOut(A.AllOf).log + [Ended(1, Returned), Took(3, 14, None)]
  {
    acts := TimerFirst(A.AllOf);
    var w1 := TimedOut(A.AllOf);
    More(acts, w1, Ends(1, Returned));
    var w2 := End(w1, 1, Returned);
    assert w2.parts == w1.parts[3 := w1.parts[3].(place := InQueue, time := 14)];
    assert IsNext(w2, 3);
    acts := acts + [Ends(1, Returned)];
    More(acts, w2, Takes(3));
    acts := acts + [Takes(3)];
    w := Take(w2, 3);
  }

  /** The last child of an all_of throws: the exception leaves `step`, no token is left,
      and the process never goes on. */
  lemma ThrowBlocksAllOf() returns (acts: seq<Action>, w: World)
    ensures Start(World0) && Run(acts, w) && |w.parts| == 4 && w.waits == [Some(0), None]
    ensures w.parts[0].place.Held? && w.parts[1].place.Taken? && w.parts[2].place.Taken? && w.parts[3].place.Taken?
    ensures w.log == [Registered(0), Registered(1), Took(1, 5, None), Ended(1, Returned), Took(3, 14, None),
                      Ended(0, Thrown7), Took(2, 14, Some(7))]
  {
    var w1;
    acts, w1 := TwoOfThree();
    More(acts, w1, Ends(0, Thrown7));
    acts := acts + [Ends(0, Thrown7)];
    var w2 := End(w1, 0, Thrown7);
    assert w2.parts == w1.parts[2 := w1.parts[2].(place := InQueue, time := 14, error := Some(7))];
    assert IsNext(w2, 2);
    More(acts, w2, Takes(2));
    w := Take(w2, 2);
    acts := acts + [Takes(2)];
  }

  // ----- two processes -----

  /** One process waits for all three; another looks at the first coroutine. */
  lemma LookedAt() returns (acts: seq<Action>, w: World)
    ensures Run(acts, w) && WF(w) && w.now == 0 && w.waits == [Some(0), None] && |w.parts| == 7
    ensures w.handles == [World0.handles[0], Handle(1, 9, Some(3))]
    ensures w.coros == [Coro(true, None), Coro(true, None)] && w.parts[..4] == TrioParts(0, 0, 0, A.AllOf)
    ensures forall i | 4 <= i < 7 :: w.parts[i].root == 4 && w.parts[i].place.Idle?
    ensures w.log == [Registered(0), Registered(1), Woke(4, Normal, {0})]
  {
    acts := Began(A.AllOf);
    var w1 := TrioBegun(World0, 0, A.AllOf);
    LookSees(w1, 1, 0);
    More(acts, w1, Begins(1, Look(0)));
    w := Begin(w1, 1, Look(0));
    acts := acts + [Begins(1, Look(0))];
  }

  /** Then the first coroutine throws. */
  lemma LookedAtThrows() returns (acts: seq<Action>, w: World)
    ensures Run(acts, w) && WF(w) && w.now == 0 && w.waits == [Some(0), None] && |w.parts| == 7
    ensures w.handles == [World0.handles[0], Handle(1, 9, Some(3))]
    ensures w.coros == [Coro(true, Some(Thrown7)), Coro(true, None)]
    ensures w.parts[0] == TrioParts(0, 0, 0, A.AllOf)[0].(kind := Composed(A.AllOf, 3, 2))
    ensures w.parts[1] == TrioParts(0, 0, 0, A.AllOf)[1] && w.parts[3] == TrioParts(0, 0, 0, A.AllOf)[3]
    ensures w.parts[2] == Part(0, Some(0), Some(0), Some(0), Through(0), Taken, 0, 0, Some(7))
    ensures forall i | 4 <= i < 7 :: w.parts[i].root == 4 && w.parts[i].place.Idle?
    ensures w.log == [Registered(0), Registered(1), Woke(4, Normal, {0}), Ended(0, Thrown7), Took(2, 0, Some(7))]
  {
    var w1;
    acts, w1 := LookedAt();
    assert forall i | 0 <= i < 4 :: w1.parts[i] == w1.parts[..4][i];
    More(acts, w1, Ends(0, Thrown7));
    acts := acts + [Ends(0, Thrown7)];
    var w2 := End(w1, 0, Thrown7);
    assert IsNext(w2, 2);
    More(acts, w2, Takes(2));
    w := Take(w2, 2);
    acts := acts + [Takes(2)];
  }

  /** The second returns, and the delay is over. */
  lemma LookedAtFires() returns (acts: seq<Action>, w: World)
    ensures Run(acts, w) && WF(w) && w.now == 14 && w.waits == [Some(0), None] && |w.parts| == 7
    ensures w.handles == [World0.handles[0], Handle(1, 9, Some(3))]
    ensures w.parts[0] == TrioParts(0, 0, 0, A.AllOf)[0].(kind := Composed(A.AllOf, 3, 0), place := InQueue, time := 14)
    ensures w.parts[1].root == 0 && w.parts[1].kind.Timed? && w.parts[1].place.Taken?
    ensures w.parts[2] == Part(0, Some(0), Some(0), Some(0), Through(0), Taken, 0, 0, Some(7))
    ensures w.parts[3] == Part(0, Some(0), Some(0), Some(0), Through(1), Taken, 9, 14, None)
    ensures forall i | 4 <= i < 7 :: w.parts[i].root == 4 && w.parts[i].place.Idle?
    ensures w.log == [Registered(0), Registered(1), Woke(4, Normal, {0}), Ended(0, Thrown7), Took(2, 0, Some(7)),
                      Took(1, 5, None), Ended(1, Returned), Took(3, 14, None)]
  {
    var w1;
    acts, w1 := LookedAtThrows();
    assert IsNext(w1, 1);
    More(acts, w1, Takes(1));
    acts := acts + [Takes(1)];
    var w2 := Take(w1, 1);
    More(acts, w2, Ends(1, Returned));
    acts := acts + [Ends(1, Returned)];
    var w3 := End(w2, 1, Returned);
    assert w3.parts[3] == Part(0, Some(0), Some(0), Some(0), Through(1), InQueue, 9, 14, None);
    assert w3.parts[2] == w2.parts[2] && w3.parts[1] == w2.parts[1] && w3.parts[0] == w2.parts[0];
    assert forall i | 4 <= i < 7 :: w3.parts[i] == w1.parts[i];
    assert IsNext(w3, 3);
    More(acts, w3, Takes(3));
    w := Take(w3, 3);
    acts := acts + [Takes(3)];
  }

  /** A coroutine throws that a process is waiting for in an all_of, but another process has
      taken the token meanwhile: the first goes on and sees nothing. */
  lemma TakenTokenMissed() returns (acts: seq<Action>, w: World)
    ensures Start(World0) && Run(acts, w)
    ensures w.log == [Registered(0), Registered(1), Woke(4, Normal, {0}), Ended(0, Thrown7), Took(2, 0, Some(7)),
                      Took(1, 5, None), Ended(1, Returned), Took(3, 14, None), Took(0, 14, None),
                      Woke(0, Normal, {0, 1})]
  {
    var w1;
    acts, w1 := LookedAtFires();
    assert IsNext(w1, 0);
    var pop := Pop(w1, 0);
    assert pop.parts == w1.parts[0 := w1.parts[0].(place := Taken)];
    PopWF(w1, 0);
    LeavesOfTrio(pop);
    TrioVisit(pop, 0);
    More(acts, w1, Takes(0));
    w := Take(w1, 0);
    acts := acts + [Takes(0)];
  }

  // ----- an await that is refused -----

  /** The root has been suspended on, and the delay; then the exception comes. */
  function TrioRefused(w: World, p: nat, cond: A.Condition): World
    requires BothRun(w) && p < |w.waits|
  {
    var x := TrioParts(|w.parts|, p, w.now, cond);
    w.(coros := [Coro(true, None), Coro(true, None)],
       parts := w.parts + [x[0], x[1], x[2].(place := Unreached), x[3].(place := Unreached)],
       waits := w.waits[p := None], log := w.log + [Refused(Some(p))])
  }

  lemma TrioRefuses(w: World, p: nat, cond: A.Condition)
    requires WF(w) && BothRun(w) && p < |w.waits| && w.handles[0].token.Some?
    ensures IsTree(Trio(cond)) && Knows(w, Trio(cond)) && Begin(w, p, Trio(cond)) == TrioRefused(w, p, cond)
  {
    var n := |w.parts|;
    TrioTree(w, cond);
    TrioPlanted(w, p, cond);
    TrioReady(w, cond);
    PlantWF(w, Trio(cond), p);
    var m := WaitFor(Plant(w, Trio(cond), p), p, n);
    WaitWF(Plant(w, Trio(cond), p), p, n);
    SuspendStep(m, n);
    var m1 := Suspend(m, n);
    SuspendStep(m1, n + 1);
    var m2 := Suspend(m1, n + 1);
    assert m2.parts[n + 2] == m.parts[n + 2];
    assert SuspendFrom(m2, n + 2) == Refuse(m2, n + 2);
    assert m2.parts[n].parent.None? && m2.parts[n].handler.None? && m2.parts[n + 2].parent == Some(n);
    forall i | 0 <= i < |m2.parts| ensures Above(m2.parts, n + 2, i) ==> m2.parts[i].handler.None? {
      assert !Above(m2.parts, n, i);
    }
    assert Refuse(m2, n + 2).parts == m2.parts == TrioRefused(w, p, cond).parts;
  }

  function Sleep(d: nat): seq<Node> {
    [Node(None, Delay(d))]
  }

  lemma SleepBegins(w: World, p: nat, d: nat)
    requires WF(w) && p < |w.waits|
    ensures IsTree(Sleep(d)) && Knows(w, Sleep(d))
    ensures Begin(w, p, Sleep(d)) == w.(
      parts := w.parts + [Part(|w.parts|, None, None, Some(p), Timed, InQueue, d, w.now + d, None)],
      waits := w.waits[p := Some(|w.parts|)])
  {
    var nodes, n := Sleep(d), |w.parts|;
    PlantWF(w, nodes, p);
    assert BindAll(w, nodes) == w.coros;
    assert Made(w, nodes, p, 0) == Part(n, None, None, Some(p), Timed, Unreached, d, 0, None);
    assert Plant(w, nodes, p).parts == w.parts + [Made(w, nodes, p, 0)];
    var m := WaitFor(Plant(w, nodes, p), p, n);
    WaitWF(Plant(w, nodes, p), p, n);
    SuspendStep(m, n);
    assert Suspend(m, n).parts == w.parts + [Part(n, None, None, Some(p), Timed, InQueue, d, w.now + d, None)];
  }

  /** A process has an any_of refused, since another awaits the same handles; it then waits
      for nine units. */
  const Refused9 := TrioRefused(TrioBegun(World0, 0, A.AnyOf), 1, A.AnyOf).(
    parts := TrioRefused(TrioBegun(World0, 0, A.AnyOf), 1, A.AnyOf).parts
             + [Part(8, None, None, Some(1), Timed, InQueue, 9, 9, None)],
    waits := [Some(0), Some(8)])

  lemma RefusedThenSleeps() returns (acts: seq<Action>)
    ensures Run(acts, Refused9) && WF(Refused9)
  {
    acts := Began(A.AnyOf);
    var w1 := TrioBegun(World0, 0, A.AnyOf);
    TrioRefuses(w1, 1, A.AnyOf);
    More(acts, w1, Begins(1, Trio(A.AnyOf)));
    acts := acts + [Begins(1, Trio(A.AnyOf))];
    var w2 := TrioRefused(w1, 1, A.AnyOf);
    SleepBegins(w2, 1, 9);
    More(acts, w2, Begins(1, Sleep(9)));
    acts := acts + [Begins(1, Sleep(9))];
    assert Begin(w2, 1, Sleep(9)) == Refused9;
  }

  lemma {:induction false} NoLeaves(parts: seq<Part>, handles: seq<Handle>, r: nat, i: nat)
    requires AllKnown(parts, handles) && forall j: nat :: i <= j ==> !LeafOf(parts, j, r)
    ensures VisitFrom(parts, handles, r, i) == Visits(handles, None, {})
    decreases |parts| - i
  {
    if i < |parts| { NoLeaves(parts, handles, r, i + 1); }
  }

  /** But the delay of the refused any_of resumes it after five, in the midst of its new
      await, whose own token is still queued. */
  lemma RefusedResumesEarly() returns (acts: seq<Action>, w: World)
    ensures Start(World0) && Run(acts, w) && |w.parts| == 9 && w.parts[8].place.InQueue? && w.parts[8].time == 9
    ensures w.log == [Registered(0), Registered(1), Refused(Some(1)), Took(5, 5, None), Took(4, 5, None),
                      Woke(8, Normal, {})]
  {
    acts := RefusedThenSleeps();
    assert IsNext(Refused9, 5);
    More(acts, Refused9, Takes(5));
    acts := acts + [Takes(5)];
    var w1 := Take(Refused9, 5);
    var root := Refused9.parts[4].(kind := Composed(A.AnyOf, 3, 2), place := InQueue, time := 5);
    assert w1.parts == Refused9.parts[5 := Refused9.parts[5].(place := Taken)][4 := root];
    EarlyRoot(acts, w1);
    w := Take(w1, 4);
    acts := acts + [Takes(4)];
  }

  lemma EarlyRoot(acts: seq<Action>, w: World)
    requires Run(acts, w) && WF(w) && w.now == 5 && w.waits == [Some(0), Some(8)] && |w.handles| == 2
    requires w.log == Refused9.log + [Took(5, 5, None)]
    requires var root := Refused9.parts[4].(kind := Composed(A.AnyOf, 3, 2), place := InQueue, time := 5);
      w.parts == Refused9.parts[5 := Refused9.parts[5].(place := Taken)][4 := root]
    ensures Run(acts + [Takes(4)], Take(w, 4)) && Take(w, 4).parts == w.parts[4 := w.parts[4].(place := Taken)]
    ensures Take(w, 4).log == w.log + [Took(4, 5, None), Woke(8, Normal, {})]
  {
    assert IsNext(w, 4);
    var pop := Pop(w, 4);
    PopWF(w, 4);
    HandlesKnown(pop);
    NoLeaves(pop.parts, pop.handles, 8, 0);
    More(acts, w, Takes(4));
  }

  // ----- a process that nobody waits for -----

  /** The exception of a process that was bound from outside leaves `step` through its bare
      token, which may be taken ahead of its time: then the clock has passed the delay that
      was due before. */
  lemma BareTokenComesFirst() returns (acts: seq<Action>, w: World)
    ensures Start(World0) && Run(acts, w) && |w.parts| == 2 && w.parts[1].time == 5
    ensures w.log == [Registered(1), Ended(1, Thrown8), Took(0, 9, Some(8)), Took(1, 9, None), Woke(1, Normal, {})]
  {
    World0Starts();
    RunWF([], World0);
    var w1 := Launch(World0, 1);
    BareWF(World0, 1);
    SuspendStep(BareWorld(World0, 1), 0);
    var bare := Part(0, None, None, None, Through(1), Held, 9, 0, None);
    assert w1.parts == [bare] && w1.handles == [World0.handles[0], Handle(1, 9, Some(0))];
    More([], World0, Launches(1));
    acts := [] + [Launches(1)];
    SleepBegins(w1, 0, 5);
    More(acts, w1, Begins(0, Sleep(5)));
    acts := acts + [Begins(0, Sleep(5))];
    var w2 := Begin(w1, 0, Sleep(5));
    More(acts, w2, Ends(1, Thrown8));
    acts := acts + [Ends(1, Thrown8)];
    var w3 := End(w2, 1, Thrown8);
    assert w3.parts == [bare.(place := InQueue, time := 9, error := Some(8)),
                        Part(1, None, None, Some(0), Timed, InQueue, 5, 5, None)];
    acts, w := BareTaken(acts, w3);
  }

  lemma BareTaken(before: seq<Action>, w: World) returns (acts: seq<Action>, w': World)
    requires Run(before, w) && WF(w) && w.now == 0 && w.waits == [Some(1), None] && |w.handles| == 2
    requires w.parts == [Part(0, None, None, None, Through(1), InQueue, 9, 9, Some(8)),
                         Part(1, None, None, Some(0), Timed, InQueue, 5, 5, None)]
    ensures Run(acts, w') && |w'.parts| == 2 && w'.parts[1].time == 5
    ensures w'.log == w.log + [Took(0, 9, Some(8)), Took(1, 9, None), Woke(1, Normal, {})]
  {
    assert IsBare(w.parts[0]) && IsNext(w, 0);
    More(before, w, Takes(0));
    acts := before + [Takes(0)];
    var w1 := Take(w, 0);
    assert w1.parts == [w.parts[0].(place := Taken), w.parts[1]];
    assert IsNext(w1, 1);
    var pop := Pop(w1, 1);
    PopWF(w1, 1);
    HandlesKnown(pop);
    NoLeaves(pop.parts, pop.handles, 1, 0);
    More(acts, w1, Takes(1));
    w' := Take(w1, 1);
    acts := acts + [Takes(1)];
  }
}
