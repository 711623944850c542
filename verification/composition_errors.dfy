/** What becomes of an exception that a coroutine throws whose handle is part of
    compositions: who sees it, when it leaves `step`, and when compositions fire. */
module CompositionErrors {
  import opened Options
  import opened AwaitAlgebra
  import opened CompositionMachine
  import opened CompositionInvariant
  import opened CompositionSteps
  import opened CompositionBegin

  lemma PrefixThrown(w: World, k: nat, c: nat, a: int, b: int)
    requires Inv(w) && k <= |w.log| && c < |w.coros|
    requires Ended(c, Threw(a)) in w.log[..k] && Ended(c, Threw(b)) in w.log[..k]
    ensures a == b
  {
    assert CoroOk(w, c);
    assert Ended(c, Threw(a)) in w.log && Ended(c, Threw(b)) in w.log;
  }

  /** There is at most one exception to be met. */
  lemma MeetsOne(w: World, k: nat, r: nat, i: nat, a: int, j: nat, b: int)
    requires Inv(w) && k <= |w.log| && Meets(w, k, r, i, a) && Meets(w, k, r, j, b)
    ensures i == j && a == b
  {
    assert Carries(w, k, w.parts[i].kind.h) && Carries(w, k, w.parts[j].kind.h);
    assert HandleWF(w, w.handles[w.parts[i].kind.h]);
    if i == j { PrefixThrown(w, k, w.handles[w.parts[i].kind.h].coro, a, b); }
  }

  /** When a process goes on after an await, at once or later, it sees exception `e` if
      and only if one of the handles in its tree holds at that moment a token whose
      coroutine has thrown `e`, and no handle before it in the order of the tree holds
      one whose coroutine has thrown. It does not matter whether this await suspended on
      that handle, nor which child fired which composition. */
  lemma ProcessSeesIff(w: World, k: nat)
    requires Reached(w) && k < |w.log| && w.log[k].Woke?
    ensures forall e :: w.log[k].seen == Rethrown(e) <==> exists j: nat :: Meets(w, k, w.log[k].root, j, e)
    ensures w.log[k].seen == Normal <==>
      forall j: nat | LeafOf(w.parts, j, w.log[k].root) :: !Carries(w, k, w.parts[j].kind.h)
  {
    ReachedOk(w);
    var r, seen := w.log[k].root, w.log[k].seen;
    assert LogOk(w, k) && WokeOk(w, k);
    forall e, j: nat | Meets(w, k, r, j, e) ensures seen == Rethrown(e) {
      assert Carries(w, k, w.parts[j].kind.h);
      var d := seen.e;
      var i: nat :| Meets(w, k, r, i, d);
      MeetsOne(w, k, r, i, d, j, e);
    }
    if seen.Rethrown? {
      var i: nat :| Meets(w, k, r, i, seen.e);
      assert Carries(w, k, w.parts[i].kind.h);
    }
  }

  /** The process that goes on at `k` comes to node `j` of its tree: no node before it has
      met an exception. */
  ghost predicate Reaches(w: World, k: nat, j: nat)
    requires k < |w.log| && w.log[k].Woke?
  {
    LeafOf(w.parts, j, w.log[k].root)
    && forall i: nat | i < j && LeafOf(w.parts, i, w.log[k].root) :: !Carries(w, k, w.parts[i].kind.h)
  }

  lemma ReachesIs(w: World, k: nat, j: nat)
    requires Inv(w) && k < |w.log| && w.log[k].Woke? && LeafOf(w.parts, j, w.log[k].root)
    requires w.log[k].seen.Rethrown?
    ensures Reaches(w, k, j) <==> exists i: nat :: j <= i && Meets(w, k, w.log[k].root, i, w.log[k].seen.e)
  {
    var r, e := w.log[k].root, w.log[k].seen.e;
    assert LogOk(w, k) && WokeOk(w, k);
    hide Inv;
    var i: nat :| Meets(w, k, r, i, e);
    assert Carries(w, k, w.parts[i].kind.h);
    if c: nat :| j <= c && Meets(w, k, r, c, e) {
      assert Reaches(w, k, j);
    }
    if Reaches(w, k, j) {
      assert j <= i && Meets(w, k, r, i, e);
    }
  }

  lemma ReachesVisited(w: World, k: nat, h: nat)
    requires Inv(w) && k < |w.log| && w.log[k].Woke?
    ensures h in w.log[k].visited <==> exists j: nat :: Reaches(w, k, j) && w.parts[j].kind.h == h
  {
    var r, seen, visited := w.log[k].root, w.log[k].seen, w.log[k].visited;
    assert LogOk(w, k) && WokeOk(w, k);
    if seen.Rethrown? {
      var i: nat :| Meets(w, k, r, i, seen.e) && VisitedBelow(w.parts, visited, r, i + 1);
      forall j: nat | LeafOf(w.parts, j, r) ensures Reaches(w, k, j) <==> j < i + 1 {
        ReachesIs(w, k, j);
        if c: nat :| j <= c && Meets(w, k, r, c, seen.e) { MeetsOne(w, k, r, i, seen.e, c, seen.e); }
      }
      hide Inv;
      assert h in visited <==> exists j: nat :: j < i + 1 && LeafOf(w.parts, j, r) && w.parts[j].kind.h == h;
    } else {
      hide Inv;
      forall j: nat ensures Reaches(w, k, j) <==> LeafOf(w.parts, j, r) {}
      assert h in visited <==> exists j: nat :: j < |w.parts| && LeafOf(w.parts, j, r) && w.parts[j].kind.h == h;
    }
  }

  /** An exception ends the visits: the handles up to its own give up their tokens, and
      those after it keep theirs, for a later await to see. */
  lemma VisitsStop(w: World, k: nat, h: nat)
    requires Reached(w) && k < |w.log| && w.log[k].Woke?
    ensures HoldsToken(w.log[..k + 1], h) <==>
            (HoldsToken(w.log[..k], h) && !exists j: nat :: Reaches(w, k, j) && w.parts[j].kind.h == h)
  {
    ReachedOk(w);
    assert w.log[..k + 1] == w.log[..k] + [w.log[k]];
    HoldsMore(w.log[..k], w.log[k], h);
    ReachesVisited(w, k, h);
  }

  /** An exception leaves `step` if and only if the token in hand has a handler, or was
      made for nobody, and its coroutine has thrown: whether or not anybody sees it. */
  lemma ExceptionLeavesStepIff(w: World, k: nat)
    requires Reached(w) && k < |w.log| && w.log[k].Took?
    ensures w.log[k].i < |w.parts|
    ensures w.log[k].escaped.Some? <==> Reports(w.parts[w.log[k].i]) && Throws(w, k, w.log[k].i)
    ensures w.log[k].escaped.Some? ==> ThrownBy(w, k, w.log[k].i, w.log[k].escaped.value)
  {
    ReachedOk(w);
    assert LogOk(w, k) && TookOk(w, k);
  }

  /** The output token of a composition leaves its handler if and only if: for an
      any_of, its handler has taken some child's token without an exception; for an
      all_of, it has taken them all, and the last of them had none. So an exception never
      fires a composition, and may keep it from firing for ever. */
  lemma FiresIff(w: World, g: nat)
    requires Reached(w) && g < |w.parts| && w.parts[g].kind.Composed? && w.parts[g].place != Idle
    ensures HasLeft(w.parts[g]) <==> Fired(w, g)
  {
    ReachedOk(w);
    assert GroupOk(w, g);
  }

  /** As long as no process that nobody waits for has thrown, every token is taken at just
      its time. */
  lemma TakenOnTime(w: World, k: nat)
    requires Reached(w) && Orderly(w) && k < |w.log| && w.log[k].Took?
    ensures w.log[k].i < |w.parts| && w.log[k].at == w.parts[w.log[k].i].time
  {
    ReachedOk(w);
    assert LogOk(w, k) && TookOk(w, k);
  }

  /** A handle can be suspended on if and only if its coroutine has not ended and, by the
      history, it holds no token: every `await_resume` that visits it frees it. */
  lemma HandleRefusedIff(w: World, h: nat)
    requires Reached(w) && WF(w) && h < |w.handles|
    ensures HandleWF(w, w.handles[h])
    ensures var free, ended := !HoldsToken(w.log, h), exists o :: Ended(w.handles[h].coro, o) in w.log;
      && (Launch(w, h).log == w.log + [Registered(h)] <==> !ended && free)
      && (Launch(w, h).log == w.log + [Refused(None)] <==> !ended && !free)
      && (Launch(w, h) == w <==> ended)
  {
    ReachedOk(w);
    assert HandleWF(w, w.handles[h]) && HandleOk(w, h);
    var c := w.handles[h].coro;
    assert CoroOk(w, c);
    if w.coros[c].done.Some? {
      assert Ended(c, w.coros[c].done.value) in w.log;
      assert |w.log| < |w.log + [Registered(h)]| && |w.log| < |w.log + [Refused(None)]|;
    } else {
      var m := BareWorld(w, h);
      BareWF(w, h);
      assert IsAwaited(m, |w.parts|) <==> w.handles[h].token.Some?;
      assert (w.log + [Registered(h)])[|w.log|] != (w.log + [Refused(None)])[|w.log|];
      if w.handles[h].token.Some? {
        assert Launch(w, h) == Refuse(m, |w.parts|);
      } else {
        SuspendWF(m, |w.parts|);
        assert SuspendFrom(Suspend(m, |w.parts|), |w.parts| + 1) == Suspend(m, |w.parts|);
        assert Launch(w, h) == Suspend(m, |w.parts|);
      }
    }
  }

  lemma LaunchMakes(w: World, h: nat)
    requires Inv(w) && h < |w.handles| && HandleWF(w, w.handles[h])
    requires w.coros[w.handles[h].coro].done.None? && w.handles[h].token.None?
    ensures var r, x := Launch(w, h), w.handles[h];
      && r.handles == w.handles[h := x.(token := Some(|w.parts|))] && r.log == w.log + [Registered(h)]
      && r.parts == w.parts + [Part(|w.parts|, None, None, None, Through(h), Held, x.latency, 0, None)]
  {
    var m := BareWorld(w, h);
    BareWF(w, h);
    SuspendWF(m, |w.parts|);
    assert SuspendFrom(Suspend(m, |w.parts|), |w.parts| + 1) == Suspend(m, |w.parts|);
    assert Launch(w, h) == Suspend(m, |w.parts|);
    assert Launch(w, h).parts == w.parts + [m.parts[|w.parts|].(place := Held)];
  }

  /** `async` leaves the handle free, to be suspended on again. Unless the coroutine has ended
      it makes a token that nobody waits for; if it has, then `async` rethrows what the token
      carries that the handle held. */
  lemma AsyncFrees(w: World, h: nat)
    requires Reached(w) && WF(w) && h < |w.handles|
    ensures HandleWF(w, w.handles[h])
    ensures var r, ended, c :=
        Async(w, h), exists o :: Ended(w.handles[h].coro, o) in w.log, w.handles[h].coro;
      if ended then
        && r.parts == w.parts && r.handles == w.handles[h := w.handles[h].(token := None)]
        && exists seen :: r.log == w.log + [Visited(h, seen)]
             && forall e :: seen == Rethrown(e) <==> HoldsToken(w.log, h) && Ended(c, Threw(e)) in w.log
      else if HoldsToken(w.log, h) then r.log == w.log + [Refused(None)]
      else
        && r.handles == w.handles && r.log == w.log + [Registered(h), Visited(h, Normal)]
        && r.parts == w.parts + [Part(|w.parts|, None, None, None, Through(h), Held, w.handles[h].latency, 0, None)]
  {
    ReachedOk(w);
    HandleRefusedIff(w, h);
    assert HandleWF(w, w.handles[h]) && HandleOk(w, h);
    var c := w.handles[h].coro;
    assert CoroOk(w, c);
    if w.coros[c].done.Some? {
      assert Ended(c, w.coros[c].done.value) in w.log;
      TokenErrorIs(w, h);
      assert Async(w, h).log == w.log + [Visited(h, SeenOf(TokenError(w.parts, w.handles[h])))];
      forall e | Ended(c, Threw(e)) in w.log ensures w.coros[c].done == Some(Threw(e)) {}
    } else if w.handles[h].token.None? {
      LaunchMakes(w, h);
      hide Inv, Launch;
      assert Cleared(Launch(w, h).handles, h) == w.handles;
      assert (w.log + [Registered(h)]) + [Visited(h, Normal)] == w.log + [Registered(h), Visited(h, Normal)];
    }
  }

  /** Unless an await of process `p` was refused: while it is suspended exactly one token
      will resume it, that of the root of its await, and otherwise none will. */
  lemma OneTokenResumes(w: World, p: nat)
    requires Reached(w) && p < |w.waits| && Refused(Some(p)) !in w.log
    ensures forall i: nat :: Waker(w, i, p) <==> w.waits[p] == Some(i)
  {
    ReachedOk(w);
    assert WayOk(w, p);
  }
}
