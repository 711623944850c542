/** What holds in every reachable state, whatever the programs and whichever of
    the earliest tokens goes first. */
module SyncTheorems {
  import opened Options
  import opened SyncMachine
  import opened SyncInvariant
  import opened SyncSteps

  // ----- the invariant is reached -----

  lemma FreshOk(s: State)
    requires Fresh(s)
    ensures Inv(s)
  {
    assert Debt(s) == multiset{};
    forall o | 0 <= o < |s.objs|
      ensures Conserved(s.objs[o], s.hist[o], Out(s, o, multiset{})) && EventOk(s, o) && WakesOk(s, o)
    {
      assert FreshObj(s.objs[o], s.hist[o]);
      assert Some(o) !in s.cells && Some(o) !in multiset(s.cells);
      assert forall p | 0 <= p < |s.procs| :: FreshProc(s.procs[p], s.now);
      assert BlockedOn(s.procs, o) == {};
    }
    forall p | 0 <= p < |s.procs| ensures ProcOk(s, p, None) && Placed(s, p) {
      assert FreshProc(s.procs[p], s.now);
    }
  }

  lemma RunLeads(run: seq<State>, i: nat)
    requires Run(run) && 0 < i < |run|
    ensures Leads(run[i - 1], run[i])
  {
    assert Leads(run[i - 1], run[i - 1 + 1]);
  }

  lemma {:induction false} RunKeeps(run: seq<State>, i: nat)
    requires Run(run) && Inv(run[0]) && i < |run|
    ensures Inv(run[i])
  {
    if i > 0 {
      RunKeeps(run, i - 1);
      assert Leads(run[i - 1], run[i - 1 + 1]);
      var p: nat :| Step(run[i - 1], p, run[i]);
      StepOk(run[i - 1], p, run[i]);
    }
  }

  lemma ReachableOk(s: State)
    requires Reachable(s)
    ensures Inv(s)
  {
    hide Inv;
    var run :| Run(run) && Fresh(run[0]) && run[|run| - 1] == s;
    FreshOk(run[0]);
    RunKeeps(run, |run| - 1);
  }

  // ----- no lost wake-up -----

  /** Why a process may be kept waiting at `op`. */
  predicate Refuses(b: Obj, op: Op) {
    match b
    case Event => op.Wait?
    case Semaphore(v, m) => (op.Up? && v >= m) || (op.Down? && v == 0)
    case Mutex(owned) => op.Lock? && owned
    case Resource(f, _) => op.Acquire? && f == 0
    case Queue(items, m) => (op.Put? && m != 0 && |items| == m) || (op.Take? && items == [])
  }

  /** A registered process waits for something that has not happened. */
  lemma NoLostWakeup(s: State, p: nat)
    requires Reachable(s) && p < |s.procs| && s.procs[p].status.Blocked?
    ensures var o := s.procs[p].status.o;
      && o < |s.objs|
      && (!s.objs[o].Event? ==> s.procs[p].prog != [] && Refuses(s.objs[o], s.procs[p].prog[0]))
  {
    ReachableOk(s);
    assert ProcOk(s, p, None);
    var o := s.procs[p].status.o;
    assert Conserved(s.objs[o], s.hist[o], Out(s, o, Debt(s)));
    if !s.objs[o].Event? {
      var op := s.procs[p].prog[0];
      assert Placed(s, p);
      assert op.ReleaseUp? ==> s.running == Some(p);
    }
  }

  /** A queue never has producers and consumers waiting together, nor has a
      semaphore, unless its maximum is zero. */
  lemma NeverBothWait(s: State, p: nat, q: nat, o: nat)
    requires Reachable(s) && p < |s.procs| && q < |s.procs| && o < |s.objs|
    requires s.procs[p].status.Blocked? && s.procs[p].status.o == o && s.procs[p].prog != []
    requires s.procs[q].status.Blocked? && s.procs[q].status.o == o && s.procs[q].prog != []
    ensures s.objs[o].Queue? ==> !(s.procs[p].prog[0].Put? && s.procs[q].prog[0].Take?)
    ensures s.objs[o].Semaphore? && s.procs[p].prog[0].Up? && s.procs[q].prog[0].Down? ==> s.objs[o].max == 0
  {
    NoLostWakeup(s, p);
    NoLostWakeup(s, q);
  }

  // ----- conservation -----

  /** What was put is what was taken and then what is there, in order; a bounded
      queue stays within its bound. */
  lemma Fifo(s: State, o: nat)
    requires Reachable(s) && o < |s.objs| && s.objs[o].Queue?
    ensures o < |s.hist| && s.hist[o].inserted == s.hist[o].removed + s.objs[o].items
    ensures s.objs[o].maxSize != 0 ==> |s.objs[o].items| <= s.objs[o].maxSize
  {
    ReachableOk(s);
    assert Conserved(s.objs[o], s.hist[o], Out(s, o, Debt(s)));
  }

  /** Permits: none is made or lost, and the count stays in range (from above,
      unless it started out of range). */
  lemma SemaphoreCounts(s: State, o: nat)
    requires Reachable(s) && o < |s.objs| && s.objs[o].Semaphore?
    ensures o < |s.hist| && s.objs[o].value + s.hist[o].downs == s.hist[o].initial + s.hist[o].ups
    ensures s.hist[o].initial <= s.objs[o].max ==> s.objs[o].value <= s.objs[o].max
  {
    ReachableOk(s);
    assert Conserved(s.objs[o], s.hist[o], Out(s, o, Debt(s)));
  }

  /** A semaphore whose value does not exceed its maximum. */
  ghost predicate InRange(s: State, o: nat) {
    o < |s.objs| && s.objs[o].Semaphore? && s.objs[o].value <= s.objs[o].max
  }

  /** Kind, maximum and initial value of a semaphore never change. */
  ghost predicate SameLimits(s: State, s': State, o: nat) {
    && o < |s.objs| == |s'.objs| && o < |s.hist| == |s'.hist|
    && s.objs[o].Semaphore? && s'.objs[o].Semaphore? && s'.objs[o].max == s.objs[o].max
    && s'.hist[o].initial == s.hist[o].initial
  }

  lemma PassKeepsLimits(s: State, p: nat, op: Op, rest: seq<Op>, o: nat)
    requires WF(s) && p < |s.procs| && Guarded(op) && Typed(s.objs, |s.cells|, op) && Guard(s.objs[op.o], op)
    requires o < |s.objs| && s.objs[o].Semaphore?
    ensures SameLimits(s, Pass(s, p, op, rest), o)
  {
    var s1 := SetObj(SetProg(s, p, rest), op.o, op);
    assert SameLimits(s, s1, o);
    hide Guard, Change, Note, WF;
    if op.Lock? {
      assert SameLimits(s1, Store(s1, op.cell, op.o), o);
    } else {
      var s2 := WakeAll(s1, op.o);
      assert SameLimits(s1, s2, o);
      if op.Acquire? {
        assert SameLimits(s2, Store(s2, op.cell, op.o), o);
      }
    }
  }

  lemma ReleaseKeepsLimits(s: State, p: nat, c: nat, rest: seq<Op>, o: nat)
    requires WF(s) && p < |s.procs| && c < |s.cells| && o < |s.objs| && s.objs[o].Semaphore?
    ensures SameLimits(s, ReleaseHandle(s, p, c, rest), o)
  {
    assert CellOk(s.objs, s.cells[c]);
  }

  lemma StepKeepsLimits(s: State, p: nat, s': State, o: nat)
    requires Step(s, p, s') && o < |s.objs| && s.objs[o].Semaphore?
    ensures SameLimits(s, s', o)
  {
    hide Pass, ReleaseHandle, Guard;
    if s.running.Some? && s.procs[p].prog != [] {
      var op, rest := s.procs[p].prog[0], s.procs[p].prog[1..];
      assert ProgOk(s.objs, |s.cells|, s.procs[p].prog);
      assert Typed(s.objs, |s.cells|, op);
      if op.Release? {
        ReleaseKeepsLimits(s, p, op.cell, rest, o);
      } else if Guarded(op) && Guard(s.objs[op.o], op) {
        PassKeepsLimits(s, p, op, rest, o);
      }
    }
  }

  lemma {:induction false} RunKeepsLimits(run: seq<State>, i: nat, o: nat)
    requires Run(run) && i < |run| && WF(run[0]) && o < |run[0].objs| && run[0].objs[o].Semaphore?
    ensures SameLimits(run[0], run[i], o)
  {
    hide Step;
    if i > 0 {
      RunKeepsLimits(run, i - 1, o);
      RunLeads(run, i);
      var p: nat :| Step(run[i - 1], p, run[i]);
      StepKeepsLimits(run[i - 1], p, run[i], o);
    }
  }

  /** A semaphore stays in range in every run from a start if and only if it is built in
      range, which its constructor does not check. */
  lemma SemaphoreInRangeIff(s: State, o: nat)
    requires Fresh(s) && o < |s.objs| && s.objs[o].Semaphore?
    ensures (forall run | Run(run) && run[0] == s :: InRange(run[|run| - 1], o)) <==> s.objs[o].value <= s.objs[o].max
  {
    hide Inv, Fresh;
    forall run | Run(run) && run[0] == s && s.objs[o].value <= s.objs[o].max ensures InRange(run[|run| - 1], o) {
      FreshLimits(s, o);
      FreshOk(s);
      RunKeeps(run, |run| - 1);
      RunKeepsLimits(run, |run| - 1, o);
      InvLimits(run[|run| - 1], o);
    }
    assert Run([s]) && [s][0] == s && [s][|[s]| - 1] == s;
  }

  lemma FreshLimits(s: State, o: nat)
    requires Fresh(s) && o < |s.objs| && s.objs[o].Semaphore?
    ensures WF(s) && s.hist[o].initial == s.objs[o].value
  {
    assert FreshObj(s.objs[o], s.hist[o]);
  }

  lemma InvLimits(s: State, o: nat)
    requires Inv(s) && o < |s.objs| && s.objs[o].Semaphore?
    ensures o < |s.hist| && (s.objs[o].value <= s.objs[o].max || s.objs[o].value <= s.hist[o].initial)
  {
    assert Conserved(s.objs[o], s.hist[o], Out(s, o, Debt(s)));
  }

  /** A start that is out of range: `semaphore(2, 1)`. */
  const Overfull := State(0, None, [Semaphore(2, 1)], [], [], [History(2, 0, 0, [], [], 0, [], 0, 0)])

  lemma OverfullStarts()
    ensures Fresh(Overfull) && !InRange(Overfull, 0)
    ensures exists run :: Run(run) && run[0] == Overfull && !InRange(run[|run| - 1], 0)
  {
    assert FreshObj(Overfull.objs[0], Overfull.hist[0]);
    assert Run([Overfull]) && [Overfull][0] == Overfull;
  }

  /** Between two segments every unit is free, in a handle, or was in a handle that
      was destroyed. */
  lemma UnitsConserved(s: State, o: nat)
    requires Reachable(s) && s.running.None? && o < |s.objs| && s.objs[o].Resource?
    ensures o < |s.hist| && s.objs[o].free + Handles(s.cells, o) + s.hist[o].dropped == s.objs[o].count
  {
    ReachableOk(s);
    assert Conserved(s.objs[o], s.hist[o], Out(s, o, Debt(s)));
  }

  lemma TwoHandles(cells: seq<Option<nat>>, o: nat, c: nat, d: nat)
    requires c < d < |cells| && cells[c] == Some(o) == cells[d]
    ensures Handles(cells, o) >= 2
  {
    assert cells == cells[..c] + [cells[c]] + cells[c + 1..d] + [cells[d]] + cells[d + 1..];
  }

  lemma MutexAccount(s: State, o: nat)
    requires Inv(s) && o < |s.objs| && s.objs[o].Mutex?
    ensures o < |s.hist| && Handles(s.cells, o) + s.hist[o].dropped == if s.objs[o].owned then 1 else 0
  {
    assert Conserved(s.objs[o], s.hist[o], Out(s, o, Debt(s)));
    assert Debt(s)[o] == 0 by {
      if s.running.Some? {
        var p := s.running.value;
        assert ProgOk(s.objs, |s.cells|, s.procs[p].prog);
      }
    }
  }

  /** A mutex is owned exactly when one handle is valid or was destroyed, and never
      are two handles valid. */
  lemma MutexExclusive(s: State, o: nat)
    requires Reachable(s) && o < |s.objs| && s.objs[o].Mutex?
    ensures o < |s.hist| && s.objs[o].owned == (Handles(s.cells, o) + s.hist[o].dropped == 1)
    ensures forall c, d | 0 <= c < d < |s.cells| :: !(s.cells[c] == Some(o) == s.cells[d])
  {
    hide Inv, Reachable;
    ReachableOk(s);
    MutexAccount(s, o);
    forall c, d | 0 <= c < d < |s.cells| ensures !(s.cells[c] == Some(o) == s.cells[d]) {
      if s.cells[c] == Some(o) == s.cells[d] {
        TwoHandles(s.cells, o, c, d);
      }
    }
  }

  lemma ReleaseTakesBack(s: State, p: nat, c: nat, s1: State)
    requires At(s, p) && s.procs[p].prog[0] == Release(c) && c < |s.cells| && s.cells[c].Some?
    requires s.cells[c].value < |s.objs| && s.objs[s.cells[c].value].Resource?
    requires Step(s, p, s1)
    ensures s1 == SetProg(SetCell(s, c, None), p, [ReleaseUp(s.cells[c].value)] + s.procs[p].prog[1..])
    ensures At(s1, p) && s1.procs[p].prog[0] == ReleaseUp(s.cells[c].value)
  {
    hide Inv;
    StepOk(s, p, s1);
  }

  lemma ReleaseGivesBack(s: State, p: nat, o: nat, s2: State)
    requires At(s, p) && s.procs[p].prog[0] == ReleaseUp(o) && Step(s, p, s2)
    ensures o < |s.objs| && s.objs[o].Resource? && s.objs[o].free < s.objs[o].count
    ensures s2.running == Some(p) && s2.cells == s.cells && |s2.procs| == |s.procs|
    ensures s2.procs[p].prog == s.procs[p].prog[1..]
    ensures s2.objs == s.objs[o := Resource(s.objs[o].free + 1, s.objs[o].count)]
  {
    hide Inv;
    ReleaseHasRoom(s, p);
  }

  lemma ReleaseInTwo(s: State, p: nat, c: nat, s1: State, s2: State)
    requires Inv(s) && s.running == Some(p) && p < |s.procs| && s.procs[p].prog != []
    requires s.procs[p].prog[0] == Release(c) && c < |s.cells| && s.cells[c].Some?
    requires s.cells[c].value < |s.objs| && s.objs[s.cells[c].value].Resource?
    requires Step(s, p, s1) && Step(s1, p, s2)
    ensures s2.running == Some(p) && s2.cells == s.cells[c := None] && |s2.procs| == |s.procs|
    ensures s2.procs[p].prog == s.procs[p].prog[1..]
    ensures var o, b := s.cells[c].value, s.objs[s.cells[c].value];
      b.free < b.count && s2.objs == s.objs[o := Resource(b.free + 1, b.count)]
  {
    hide Inv, Step;
    ReleaseTakesBack(s, p, c, s1);
    var o, rest := s.cells[c].value, s.procs[p].prog[1..];
    ReleaseGivesBack(s1, p, o, s2);
    assert ([ReleaseUp(o)] + rest)[1..] == rest;
  }

  /** Process `p` is about to release the handle in `c`, which is of resource `o`. */
  ghost predicate Releasing(s: State, p: nat, c: nat, o: nat) {
    && s.running == Some(p) && p < |s.procs| && s.procs[p].prog != [] && s.procs[p].prog[0] == Release(c)
    && c < |s.cells| && s.cells[c] == Some(o) && o < |s.objs| && s.objs[o].Resource?
  }

  /** `p` has released it and goes on running: the handle is invalid, one unit more is
      free, and nothing else has changed in the objects. */
  ghost predicate Released(s: State, s': State, p: nat, c: nat, o: nat)
    requires Releasing(s, p, c, o)
  {
    && s'.running == Some(p) && p < |s'.procs| && s'.procs[p].prog == s.procs[p].prog[1..]
    && s'.cells == s.cells[c := None]
    && s.objs[o].free < s.objs[o].count
    && s'.objs == s.objs[o := Resource(s.objs[o].free + 1, s.objs[o].count)]
  }

  lemma RunningLeads(s: State, s': State, p: nat)
    requires Leads(s, s') && s.running == Some(p)
    ensures Step(s, p, s')
  {
  }

  /** Releasing a unit takes effect at once: the process goes on running. */
  lemma ReleaseNeverSuspends(run: seq<State>, i: nat, p: nat, c: nat, o: nat)
    requires Run(run) && Fresh(run[0]) && i + 2 < |run| && Releasing(run[i], p, c, o)
    ensures Released(run[i], run[i + 2], p, c, o)
  {
    hide Inv, Step, Run, Leads, Fresh;
    FreshOk(run[0]);
    RunKeeps(run, i);
    RunLeads(run, i + 1);
    RunningLeads(run[i], run[i + 1], p);
    ReleaseTakesBack(run[i], p, c, run[i + 1]);
    RunLeads(run, i + 2);
    RunningLeads(run[i + 1], run[i + 2], p);
    ReleaseInTwo(run[i], p, c, run[i + 1], run[i + 2]);
  }

  // ----- events -----

  /** Registrations are scheduled or still registered. */
  lemma RegistrationsAccounted(s: State, o: nat)
    requires Reachable(s) && o < |s.objs|
    ensures o < |s.hist| && s.hist[o].registered == s.hist[o].scheduled + |BlockedOn(s.procs, o)|
  {
    ReachableOk(s);
    assert EventOk(s, o);
  }

  /** The token of `q` was registered, and is still or has been scheduled. */
  ghost predicate Follows(s: State, q: nat, o: nat, latency: nat, k: nat) {
    && q < |s.procs|
    && (s.procs[q].status == Blocked(o, latency, k)
        || (s.procs[q].status.Queued? && s.procs[q].status.origin == Woken(o, latency, k)))
  }

  /** No step changes a process that does not run, but for a wake of its event. */
  lemma OthersStay(s: State, p: nat, s': State, q: nat)
    requires Step(s, p, s') && q < |s.procs| && q != p
    ensures |s'.procs| == |s.procs|
    ensures s'.procs[q] == s.procs[q] || (s.procs[q].status.Blocked? && s.procs[q].status.o < |s.hist|
             && s'.procs[q] == WokenUp(s.procs[q], s.procs[q].status.o, s.now))
  {
    hide Guard, Change, Note;
  }

  /** The wakes of every event so far are still recorded. */
  ghost predicate Grown(s: State, s': State) {
    |s'.hist| == |s.hist| && forall o | 0 <= o < |s.hist| :: s.hist[o].wakes <= s'.hist[o].wakes
  }

  lemma WakeAllGrows(s: State, o: nat)
    requires o < |s.hist|
    ensures Grown(s, WakeAll(s, o))
  {
  }

  lemma StoreGrows(s: State, c: nat, o: nat)
    requires c < |s.cells| && (s.cells[c].Some? ==> s.cells[c].value < |s.hist|)
    ensures Grown(s, Store(s, c, o))
  {
  }

  lemma PassGrows(s: State, p: nat, op: Op, rest: seq<Op>)
    requires WF(s) && p < |s.procs| && Guarded(op) && Typed(s.objs, |s.cells|, op) && Guard(s.objs[op.o], op)
    ensures Grown(s, Pass(s, p, op, rest))
  {
    hide Guard, Change, WakeAll, Store;
    var s1 := SetObj(SetProg(s, p, rest), op.o, op);
    assert Grown(s, s1);
    if op.Lock? || op.Acquire? {
      assert CellOk(s.objs, s1.cells[op.cell]);
    }
    if op.Lock? {
      StoreGrows(s1, op.cell, op.o);
    } else {
      WakeAllGrows(s1, op.o);
      if op.Acquire? {
        WakeKeepsCells(s1, op.o);
        StoreGrows(WakeAll(s1, op.o), op.cell, op.o);
      }
    }
  }

  lemma WakeKeepsCells(s: State, o: nat)
    requires o < |s.hist|
    ensures WakeAll(s, o).cells == s.cells
  {
  }

  lemma WakesGrow(s: State, p: nat, s': State)
    requires Step(s, p, s')
    ensures Grown(s, s')
  {
    hide Guard, Change, Pass;
    if s.running.Some? && s.procs[p].prog != [] {
      var op, rest := s.procs[p].prog[0], s.procs[p].prog[1..];
      assert ProgOk(s.objs, |s.cells|, s.procs[p].prog);
      assert Typed(s.objs, |s.cells|, op);
      if Guarded(op) && Guard(s.objs[op.o], op) {
        PassGrows(s, p, op, rest);
      }
    }
  }

  lemma FollowedStep(s: State, p: nat, s': State, q: nat, o: nat, latency: nat, k: nat)
    requires Step(s, p, s') && Follows(s, q, o, latency, k)
    requires s.running != Some(q) && s'.running != Some(q)
    ensures Follows(s', q, o, latency, k)
  {
    hide DoOp;
    assert q != p;
    OthersStay(s, p, s', q);
  }

  ghost predicate Sleeps(run: seq<State>, i: nat, j: nat, q: nat)
    requires j <= |run|
  {
    forall m | i <= m < j :: run[m].running != Some(q)
  }

  lemma {:induction false} Followed(run: seq<State>, i: nat, j: nat, q: nat, o: nat, latency: nat, k: nat)
    requires Run(run) && Inv(run[0]) && i <= j < |run|
    requires q < |run[i].procs| && run[i].procs[q].status == Blocked(o, latency, k)
    requires Sleeps(run, i, j + 1, q)
    ensures Follows(run[j], q, o, latency, k)
    ensures Grown(run[i], run[j]) && |run[i].hist| == |run[j].hist|
  {
    hide Inv, Step;
    if j > i {
      Followed(run, i, j - 1, q, o, latency, k);
      assert Leads(run[j - 1], run[j - 1 + 1]);
      var p: nat :| Step(run[j - 1], p, run[j]);
      FollowedStep(run[j - 1], p, run[j], q, o, latency, k);
      WakesGrow(run[j - 1], p, run[j]);
    }
  }

  lemma Registered(s: State, q: nat)
    requires Inv(s) && q < |s.procs| && s.procs[q].status.Blocked?
    ensures s.procs[q].status.o < |s.hist| && s.procs[q].status.since == |s.hist[s.procs[q].status.o].wakes|
  {
    assert ProcOk(s, q, None);
  }

  lemma DueByWake(s: State, q: nat, o: nat, latency: nat, k: nat)
    requires Inv(s) && Follows(s, q, o, latency, k) && s.procs[q].status.Queued?
    ensures o < |s.hist| && k < |s.hist[o].wakes| && s.procs[q].status.time == s.hist[o].wakes[k] + latency
    ensures s.now <= s.procs[q].status.time
  {
    assert ProcOk(s, q, None);
  }

  /** Only a resumption makes a process the running one. */
  lemma RunningStays(s: State, p: nat, s': State, q: nat)
    requires Step(s, p, s') && s.running != Some(q) && s'.running == Some(q)
    ensures s.running.None? && q == p && IsNext(s, q) && s' == Pop(s, q)
  {
    hide Guard, Change, Note;
  }

  lemma Resumed(s: State, s': State, q: nat, o: nat, latency: nat, k: nat)
    requires Inv(s) && Leads(s, s') && Follows(s, q, o, latency, k)
    requires s.running != Some(q) && s'.running == Some(q)
    ensures s'.hist == s.hist && o < |s.hist| && k < |s.hist[o].wakes|
    ensures s'.now == s.hist[o].wakes[k] + latency
  {
    hide Inv, Step;
    var p: nat :| Step(s, p, s');
    RunningStays(s, p, s', q);
    DueByWake(s, q, o, latency, k);
  }

  lemma GrownBeyond(s: State, s': State, o: nat)
    requires Grown(s, s') && o < |s.hist| && |s.hist[o].wakes| < |s'.hist[o].wakes|
    ensures s.hist[o].wakes < s'.hist[o].wakes
  {
  }

  /** A process that waits for an event resumes at the time of the first wake after
      its registration, plus its latency. */
  lemma ResumesByFirstWake(run: seq<State>, i: nat, j: nat, q: nat, o: nat, latency: nat, since: nat)
    requires Run(run) && Fresh(run[0]) && i < j < |run|
    requires q < |run[i].procs| && run[i].procs[q].status == Blocked(o, latency, since)
    requires Sleeps(run, i, j, q) && run[j].running == Some(q)
    ensures o < |run[i].hist| && since == |run[i].hist[o].wakes|
    ensures o < |run[j].hist| && run[i].hist[o].wakes < run[j].hist[o].wakes
    ensures run[j].now == run[j].hist[o].wakes[since] + latency
  {
    hide Inv, Step, Fresh, Run, Leads, Follows, Grown;
    FreshOk(run[0]);
    RunKeeps(run, i);
    RunKeeps(run, j - 1);
    Registered(run[i], q);
    Followed(run, i, j - 1, q, o, latency, since);
    RunLeads(run, j);
    assert run[j - 1].running != Some(q);
    Resumed(run[j - 1], run[j], q, o, latency, since);
    GrownBeyond(run[i], run[j - 1], o);
  }
}
