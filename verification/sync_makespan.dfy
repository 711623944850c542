/** Jobs that share k units: each takes a unit, holds it for its own time and
    gives it back, and all start together. No unit idles while a job waits. */
module SyncMakespan {
  import opened Options
  import opened SyncMachine
  import opened SyncInvariant
  import opened SyncSteps
  import opened SyncTheorems
  import opened SyncProgress

  /** The shared object is a mutex (one unit) or a resource, with index 0. */
  function Start(b: Obj, i: nat): Op {
    if b.Mutex? then Lock(0, i) else Acquire(0, i)
  }

  function JobProg(b: Obj, i: nat, d: nat): seq<Op> {
    [Start(b, i), Delay(d), Release(i)]
  }

  ghost predicate Shared(b: Obj, k: nat) {
    (b.Mutex? && k == 1) || (b.Resource? && b.count == k)
  }

  /** The four stages of a job: not started, has just started, holds, is done. */
  ghost predicate JobOk(s: State, ds: seq<nat>, i: nat)
    requires |s.objs| == 1 && i < |s.procs| == |s.cells| == |ds|
  {
    var prog, st, full := s.procs[i].prog, s.procs[i].status, JobProg(s.objs[0], i, ds[i]);
    || (prog == full && s.cells[i] == None
        && ((st.Queued? && st.time == s.now) || st.Running? || (st.Blocked? && st.o == 0 && st.latency == 0)))
    || (prog == full[1..] && s.cells[i] == Some(0) && st.Running?)
    || (prog == full[2..] && s.cells[i] == Some(0)
        && (st.Running? || (st.Queued? && s.now <= st.time <= s.now + ds[i])))
    || (prog == [ReleaseUp(0)] && s.cells[i] == None && st.Running?)
    || (prog == [] && s.cells[i] == None && (st.Running? || st.Ended?))
  }

  ghost predicate Jobs(s: State, ds: seq<nat>, k: nat) {
    && Inv(s)
    && |s.objs| == 1 && Shared(s.objs[0], k) && s.hist[0].dropped == 0
    && |s.procs| == |s.cells| == |ds|
    && forall i | 0 <= i < |ds| :: JobOk(s, ds, i)
  }

  // ----- the work done so far -----

  /** How long a job has held its unit at time `now`. */
  function Held(p: Proc, d: nat, now: int): int {
    if |p.prog| >= 2 then 0
    else if |p.prog| == 1 && p.status.Queued? then d - (p.status.time - now)
    else d
  }

  function TotalHeld(procs: seq<Proc>, ds: seq<nat>, now: int, n: nat): int
    requires n <= |procs| == |ds|
  {
    if n == 0 then 0 else TotalHeld(procs, ds, now, n - 1) + Held(procs[n - 1], ds[n - 1], now)
  }

  function Sum(ds: seq<nat>, n: nat): nat
    requires n <= |ds|
  {
    if n == 0 then 0 else Sum(ds, n - 1) + ds[n - 1]
  }

  lemma {:induction false} SameHeld(procs: seq<Proc>, procs': seq<Proc>, ds: seq<nat>, now: int, n: nat)
    requires n <= |procs| == |procs'| == |ds|
    requires forall i | 0 <= i < n :: Held(procs'[i], ds[i], now) == Held(procs[i], ds[i], now)
    ensures TotalHeld(procs', ds, now, n) == TotalHeld(procs, ds, now, n)
  {
    if n > 0 {
      SameHeld(procs, procs', ds, now, n - 1);
    }
  }

  lemma {:induction false} HeldAtMost(procs: seq<Proc>, ds: seq<nat>, now: int, n: nat, p: nat)
    requires n <= |procs| == |ds| && p < |ds|
    requires forall i | 0 <= i < n :: Held(procs[i], ds[i], now) <= ds[i]
    requires Held(procs[p], ds[p], now) == 0
    ensures TotalHeld(procs, ds, now, n) <= Sum(ds, n) - if p < n then ds[p] else 0
  {
    if n > 0 {
      HeldAtMost(procs, ds, now, n - 1, p);
    }
  }

  lemma {:induction false} AllHeld(procs: seq<Proc>, ds: seq<nat>, now: int, n: nat)
    requires n <= |procs| == |ds|
    requires forall i | 0 <= i < n :: Held(procs[i], ds[i], now) == ds[i]
    ensures TotalHeld(procs, ds, now, n) == Sum(ds, n)
  {
    if n > 0 {
      AllHeld(procs, ds, now, n - 1);
    }
  }

  lemma TakeNext(cells: seq<Option<nat>>, n: nat, o: nat)
    requires 0 < n <= |cells|
    ensures Handles(cells[..n], o) == Handles(cells[..n - 1], o) + if cells[n - 1] == Some(o) then 1 else 0
  {
    assert cells[..n] == cells[..n - 1] + [cells[n - 1]];
  }

  lemma OneMore(h: int, x: int)
    ensures (h + 1) * x == h * x + x && (h + 0) * x == h * x
  {
  }

  /** As the clock moves on, every unit in a cell is held that much longer. */
  lemma {:induction false} HeldGrows(procs: seq<Proc>, procs': seq<Proc>, cells: seq<Option<nat>>, ds: seq<nat>,
                                     now: int, now': int, n: nat)
    requires n <= |procs| == |procs'| == |ds| == |cells|
    requires forall i | 0 <= i < n ::
      Held(procs'[i], ds[i], now') == Held(procs[i], ds[i], now) + if cells[i] == Some(0) then now' - now else 0
    ensures TotalHeld(procs', ds, now', n) == TotalHeld(procs, ds, now, n) + Handles(cells[..n], 0) * (now' - now)
  {
    if n > 0 {
      HeldGrows(procs, procs', cells, ds, now, now', n - 1);
      TakeNext(cells, n, 0);
      OneMore(Handles(cells[..n - 1], 0), now' - now);
    }
  }

  // ----- what one operation of a job does -----

  /** Job `p` becomes `np` and its cell `nc`; the others stay, or are woken. */
  ghost predicate Effect(s: State, p: nat, s': State, np: Proc, nc: Option<nat>)
    requires |s.objs| == 1 == |s.hist| && p < |s.procs| == |s.cells|
  {
    && s'.now == s.now
    && |s'.objs| == 1 == |s'.hist| && s'.hist[0].dropped == s.hist[0].dropped
    && SameUnits(s.objs[0], s'.objs[0])
    && s'.cells == s.cells[p := nc]
    && |s'.procs| == |s.procs| && s'.procs[p] == np
    && forall q | 0 <= q < |s.procs| && q != p :: MayWake(s.procs[q], s'.procs[q], s.now)
  }

  predicate SameUnits(b: Obj, b': Obj) {
    (b.Mutex? && b'.Mutex?) || (b.Resource? && b'.Resource? && b'.count == b.count)
  }

  predicate MayWake(x: Proc, x': Proc, now: int) {
    x' == x || (x.status.Blocked? && x' == WokenUp(x, 0, now))
  }

  ghost predicate JobAt(s: State, ds: seq<nat>, k: nat, p: nat) {
    Jobs(s, ds, k) && p < |ds| && s.running == Some(p) && |s.hist| == 1 && s.procs[p].status.Running? && JobOk(s, ds, p)
  }

  lemma StartsJob(s: State, ds: seq<nat>, k: nat, p: nat)
    requires JobAt(s, ds, k, p) && s.procs[p].prog == JobProg(s.objs[0], p, ds[p])
    requires Guard(s.objs[0], Start(s.objs[0], p))
    ensures Effect(s, p, DoOp(s, p), Proc(s.procs[p].prog[1..], Running), Some(0))
  {
    hide Core, PlacedAll;
    var op, rest := s.procs[p].prog[0], s.procs[p].prog[1..];
    assert ProgOk(s.objs, |s.cells|, s.procs[p].prog);
    assert Typed(s.objs, |s.cells|, op);
    assert DoOp(s, p) == Pass(s, p, op, rest);
  }

  lemma RefusesJob(s: State, ds: seq<nat>, k: nat, p: nat)
    requires JobAt(s, ds, k, p) && s.procs[p].prog == JobProg(s.objs[0], p, ds[p])
    requires !Guard(s.objs[0], Start(s.objs[0], p))
    ensures Effect(s, p, DoOp(s, p), Proc(s.procs[p].prog, Blocked(0, 0, |s.hist[0].wakes|)), s.cells[p])
  {
    hide Core, PlacedAll;
    var op := s.procs[p].prog[0];
    assert ProgOk(s.objs, |s.cells|, s.procs[p].prog);
    assert Typed(s.objs, |s.cells|, op);
    assert DoOp(s, p) == Block(s, p, 0, 0);
  }

  lemma DelaysJob(s: State, ds: seq<nat>, k: nat, p: nat)
    requires JobAt(s, ds, k, p) && s.procs[p].prog == JobProg(s.objs[0], p, ds[p])[1..]
    ensures Effect(s, p, DoOp(s, p), Proc(s.procs[p].prog[1..], Queued(s.now + ds[p], Timer)), s.cells[p])
  {
    hide Core, PlacedAll;
    assert s.procs[p].prog[0] == Delay(ds[p]);
  }

  lemma ReleasesJob(s: State, ds: seq<nat>, k: nat, p: nat)
    requires JobAt(s, ds, k, p) && s.procs[p].prog == JobProg(s.objs[0], p, ds[p])[2..] && s.cells[p] == Some(0)
    ensures Effect(s, p, DoOp(s, p), Proc(if s.objs[0].Mutex? then [] else [ReleaseUp(0)], Running), None)
  {
    hide Core, PlacedAll;
    var prog := s.procs[p].prog;
    assert prog[0] == Release(p) && prog[1..] == [];
    assert ProgOk(s.objs, |s.cells|, prog);
    assert Typed(s.objs, |s.cells|, prog[0]);
    assert DoOp(s, p) == ReleaseHandle(s, p, p, []);
    assert [ReleaseUp(0)] + [] == [ReleaseUp(0)];
  }

  lemma GivesBackUnit(s: State, ds: seq<nat>, k: nat, p: nat)
    requires JobAt(s, ds, k, p) && s.procs[p].prog == [ReleaseUp(0)] && s.cells[p] == None
    ensures Effect(s, p, DoOp(s, p), Proc([], Running), None)
  {
    hide Core, PlacedAll;
    var op := s.procs[p].prog[0];
    assert s.procs[p].prog[1..] == [];
    ReleaseHasRoom(s, p);
    assert DoOp(s, p) == Pass(s, p, op, []);
    assert s.cells[p := None] == s.cells;
  }

  /** The job that runs keeps its account: what it held is what it has held. */
  lemma JobEffect(s: State, ds: seq<nat>, k: nat, p: nat, s': State) returns (np: Proc, nc: Option<nat>)
    requires JobAt(s, ds, k, p) && Step(s, p, s')
    ensures Effect(s, p, s', np, nc) && JobOk(s', ds, p)
    ensures Held(np, ds[p], s.now) == Held(s.procs[p], ds[p], s.now)
    ensures |np.prog| <= |s.procs[p].prog|
    ensures |np.prog| == 2 ==> |s.procs[p].prog| == 3
    ensures |np.prog| == 1 && np.status.Queued? ==> |s.procs[p].prog| == 2 && np.status.time == s.now + ds[p]
  {
    hide DoOp, Inv, Guard;
    var prog, full := s.procs[p].prog, JobProg(s.objs[0], p, ds[p]);
    if prog == [] {
      np, nc := Proc([], Ended), None;
      assert s.cells[p := None] == s.cells;
    } else if prog == full {
      assert Guarded(Start(s.objs[0], p)) && Fits(s.objs[0], Start(s.objs[0], p));
      if Guard(s.objs[0], Start(s.objs[0], p)) {
        StartsJob(s, ds, k, p);
        np, nc := Proc(prog[1..], Running), Some(0);
      } else {
        RefusesJob(s, ds, k, p);
        np, nc := Proc(prog, Blocked(0, 0, |s.hist[0].wakes|)), s.cells[p];
      }
    } else if prog == full[1..] {
      DelaysJob(s, ds, k, p);
      np, nc := Proc(prog[1..], Queued(s.now + ds[p], Timer)), s.cells[p];
      assert full[1..][1..] == full[2..];
    } else if prog == full[2..] {
      ReleasesJob(s, ds, k, p);
      np, nc := Proc(if s.objs[0].Mutex? then [] else [ReleaseUp(0)], Running), None;
    } else {
      GivesBackUnit(s, ds, k, p);
      np, nc := Proc([], Running), None;
    }
  }

  // ----- the account -----

  predicate Unstarted(s: State) {
    exists i :: 0 <= i < |s.procs| && |s.procs[i].prog| == 3
  }

  /** When a started job ends, as seen from the moment it starts. */
  ghost predicate DueOk(s: State, ds: seq<nat>, k: nat, t0: int, i: nat)
    requires i < |ds| == |s.procs|
  {
    var p := s.procs[i];
    && (|p.prog| == 2 ==> k * (s.now - t0) <= Sum(ds, |ds|) - ds[i])
    && (|p.prog| == 1 && p.status.Queued? ==> k * (p.status.time - t0) <= Sum(ds, |ds|) + (k - 1) * ds[i])
  }

  /** As long as a job has not started, all units have been in use all the time. */
  ghost predicate Account(s: State, ds: seq<nat>, k: nat, t0: int, longest: nat)
    requires |ds| == |s.procs|
  {
    && (k == 1 || Unstarted(s) ==> k * (s.now - t0) == TotalHeld(s.procs, ds, s.now, |ds|))
    && (forall i | 0 <= i < |ds| :: DueOk(s, ds, k, t0, i))
    && k * (s.now - t0) <= Sum(ds, |ds|) + (k - 1) * longest
  }

  lemma HeldInRange(s: State, ds: seq<nat>, k: nat, i: nat)
    requires Jobs(s, ds, k) && i < |ds|
    ensures 0 <= Held(s.procs[i], ds[i], s.now) <= ds[i]
  {
    hide Inv;
    assert JobOk(s, ds, i);
  }

  lemma EffectKeepsJobs(s: State, ds: seq<nat>, k: nat, p: nat, s': State, np: Proc, nc: Option<nat>)
    requires JobAt(s, ds, k, p) && Inv(s') && Effect(s, p, s', np, nc) && JobOk(s', ds, p)
    ensures Jobs(s', ds, k)
  {
    hide Inv;
    forall i | 0 <= i < |ds| ensures JobOk(s', ds, i) {
      assert JobOk(s, ds, i);
      assert i != p ==> MayWake(s.procs[i], s'.procs[i], s.now);
    }
  }

  lemma EffectKeepsHeld(s: State, ds: seq<nat>, k: nat, p: nat, s': State, np: Proc, nc: Option<nat>)
    requires JobAt(s, ds, k, p) && Effect(s, p, s', np, nc)
    requires Held(np, ds[p], s.now) == Held(s.procs[p], ds[p], s.now)
    ensures TotalHeld(s'.procs, ds, s'.now, |ds|) == TotalHeld(s.procs, ds, s.now, |ds|)
  {
    hide Inv;
    forall i | 0 <= i < |ds| ensures Held(s'.procs[i], ds[i], s.now) == Held(s.procs[i], ds[i], s.now) {
      assert JobOk(s, ds, i);
      assert i != p ==> MayWake(s.procs[i], s'.procs[i], s.now);
    }
    SameHeld(s.procs, s'.procs, ds, s.now, |ds|);
  }

  lemma EffectKeepsDue(s: State, ds: seq<nat>, k: nat, t0: int, longest: nat, p: nat, s': State, np: Proc,
                       nc: Option<nat>)
    requires JobAt(s, ds, k, p) && Account(s, ds, k, t0, longest) && Effect(s, p, s', np, nc)
    requires |np.prog| == 2 ==> |s.procs[p].prog| == 3
    requires |np.prog| == 1 && np.status.Queued? ==> |s.procs[p].prog| == 2 && np.status.time == s.now + ds[p]
    ensures forall i | 0 <= i < |ds| :: DueOk(s', ds, k, t0, i)
  {
    hide Inv;
    forall i | 0 <= i < |ds| ensures DueOk(s', ds, k, t0, i) {
      assert JobOk(s, ds, i) && DueOk(s, ds, k, t0, i);
      if i != p {
        assert MayWake(s.procs[i], s'.procs[i], s.now);
      } else if |np.prog| == 2 {
        assert Unstarted(s);
        forall j | 0 <= j < |ds| ensures Held(s.procs[j], ds[j], s.now) <= ds[j] {
          HeldInRange(s, ds, k, j);
        }
        HeldAtMost(s.procs, ds, s.now, |ds|, p);
      } else if |np.prog| == 1 && np.status.Queued? {
        Distribute(k, s.now - t0, ds[p]);
      }
    }
  }

  lemma Distribute(k: int, x: int, d: int)
    ensures k * (x + d) == k * x + k * d
    ensures (k - 1) * d == k * d - d
  {
  }

  lemma OpKeepsAccount(s: State, ds: seq<nat>, k: nat, t0: int, longest: nat, p: nat, s': State)
    requires JobAt(s, ds, k, p) && Account(s, ds, k, t0, longest) && Step(s, p, s')
    ensures Jobs(s', ds, k) && Account(s', ds, k, t0, longest)
  {
    hide Inv, Step, DueOk, JobOk;
    StepOk(s, p, s');
    var np, nc := JobEffect(s, ds, k, p, s');
    EffectKeepsJobs(s, ds, k, p, s', np, nc);
    EffectKeepsHeld(s, ds, k, p, s', np, nc);
    EffectKeepsDue(s, ds, k, t0, longest, p, s', np, nc);
    if Unstarted(s') {
      var i :| 0 <= i < |s'.procs| && |s'.procs[i].prog| == 3;
      assert i != p ==> MayWake(s.procs[i], s'.procs[i], s.now);
      StageLength(s, ds, k, i);
      assert |s.procs[i].prog| == 3;
    }
  }

  lemma StageLength(s: State, ds: seq<nat>, k: nat, i: nat)
    requires Jobs(s, ds, k) && i < |ds|
    ensures |s.procs[i].prog| <= 3
  {
    hide Inv;
    assert JobOk(s, ds, i);
  }

  // ----- the clock moves on -----

  lemma NotLate(s: State, i: nat)
    requires Inv(s) && i < |s.procs|
    ensures s.procs[i].status.Queued? ==> s.now <= s.procs[i].status.time
    ensures s.procs[i].status.Running? ==> s.running == Some(i)
  {
    assert ProcOk(s, i, None);
  }

  lemma PopKeepsJobs(s: State, ds: seq<nat>, k: nat, p: nat)
    requires Jobs(s, ds, k) && s.running.None? && IsNext(s, p) && Inv(Pop(s, p))
    ensures Jobs(Pop(s, p), ds, k)
  {
    hide Inv;
    var r := Pop(s, p);
    assert JobOk(s, ds, p);
    forall i | 0 <= i < |ds| ensures JobOk(r, ds, i) {
      assert JobOk(s, ds, i);
      NotLate(s, i);
    }
  }

  lemma UnitsOut(s: State, ds: seq<nat>, k: nat)
    requires Jobs(s, ds, k) && s.running.None?
    ensures match s.objs[0]
      case Mutex(owned) => k == 1 && Handles(s.cells, 0) == if owned then 1 else 0
      case Resource(free, _) => Handles(s.cells, 0) + free == k
      case _ => false
  {
    assert Debt(s) == multiset{};
    assert Conserved(s.objs[0], s.hist[0], Out(s, 0, Debt(s)));
  }

  lemma WaitingJob(s: State, ds: seq<nat>, k: nat, i: nat)
    requires Jobs(s, ds, k) && i < |ds| && s.procs[i].status.Blocked?
    requires s.procs[i].prog == JobProg(s.objs[0], i, ds[i]) && s.procs[i].status.o == 0
    ensures !Guard(s.objs[0], Start(s.objs[0], i))
  {
    assert ProcOk(s, i, None);
  }

  lemma OneHandle(cells: seq<Option<nat>>, c: nat, o: nat)
    requires c < |cells| && cells[c] == Some(o)
    ensures Handles(cells, o) >= 1
  {
    assert cells[c] in multiset(cells);
  }

  /** Time passes only while every unit is in use, if a job still waits for one. */
  lemma BusyWhileTimePasses(s: State, ds: seq<nat>, k: nat, p: nat)
    requires Jobs(s, ds, k) && s.running.None? && IsNext(s, p) && s.procs[p].status.time > s.now
    requires Unstarted(s) || k == 1
    ensures Handles(s.cells, 0) == k
  {
    hide Inv;
    UnitsOut(s, ds, k);
    if Unstarted(s) {
      var i :| 0 <= i < |s.procs| && |s.procs[i].prog| == 3;
      assert JobOk(s, ds, i);
      NotLate(s, i);
      WaitingJob(s, ds, k, i);
    } else {
      assert JobOk(s, ds, p);
      OneHandle(s.cells, p, 0);
    }
  }

  lemma HeldMovesOn(s: State, ds: seq<nat>, k: nat, p: nat, i: nat)
    requires Jobs(s, ds, k) && s.running.None? && IsNext(s, p) && i < |ds|
    ensures var r := Pop(s, p);
      Held(r.procs[i], ds[i], r.now) ==
        Held(s.procs[i], ds[i], s.now) + if s.cells[i] == Some(0) then r.now - s.now else 0
  {
    hide Inv;
    assert JobOk(s, ds, i) && JobOk(s, ds, p);
    NotLate(s, i);
    NotLate(s, p);
  }

  lemma PopGrowsHeld(s: State, ds: seq<nat>, k: nat, p: nat)
    requires Jobs(s, ds, k) && s.running.None? && IsNext(s, p)
    ensures |s.procs| == |ds|
    ensures var r := Pop(s, p);
      TotalHeld(r.procs, ds, r.now, |ds|) == TotalHeld(s.procs, ds, s.now, |ds|) + Handles(s.cells, 0) * (r.now - s.now)
  {
    hide Inv, JobOk;
    var r := Pop(s, p);
    forall i | 0 <= i < |ds|
      ensures Held(r.procs[i], ds[i], r.now) ==
        Held(s.procs[i], ds[i], s.now) + if s.cells[i] == Some(0) then r.now - s.now else 0
    {
      HeldMovesOn(s, ds, k, p, i);
    }
    HeldGrows(s.procs, r.procs, s.cells, ds, s.now, r.now, |ds|);
    assert s.cells[..|ds|] == s.cells;
  }

  lemma PopKeepsHeld(s: State, ds: seq<nat>, k: nat, t0: int, longest: nat, p: nat)
    requires Jobs(s, ds, k) && Account(s, ds, k, t0, longest) && s.running.None? && IsNext(s, p)
    requires Unstarted(s) || k == 1
    ensures var r := Pop(s, p); k * (r.now - t0) == TotalHeld(r.procs, ds, r.now, |ds|)
  {
    hide Jobs, DueOk, TotalHeld, Handles;
    PopGrowsHeld(s, ds, k, p);
    var r := Pop(s, p);
    if r.now > s.now {
      BusyWhileTimePasses(s, ds, k, p);
      Distribute(k, s.now - t0, r.now - s.now);
    }
  }

  lemma PopKeepsDue(s: State, ds: seq<nat>, k: nat, t0: int, longest: nat, p: nat)
    requires Jobs(s, ds, k) && Account(s, ds, k, t0, longest) && s.running.None? && IsNext(s, p)
    ensures forall i | 0 <= i < |ds| :: DueOk(Pop(s, p), ds, k, t0, i)
  {
    hide Inv;
    var r := Pop(s, p);
    forall i | 0 <= i < |ds| ensures DueOk(r, ds, k, t0, i) {
      assert DueOk(s, ds, k, t0, i) && JobOk(s, ds, i);
      NotLate(s, i);
    }
  }

  lemma PopKeepsBound(s: State, ds: seq<nat>, k: nat, t0: int, longest: nat, p: nat)
    requires Jobs(s, ds, k) && Account(s, ds, k, t0, longest) && s.running.None? && IsNext(s, p)
    requires k > 0 && forall i | 0 <= i < |ds| :: ds[i] <= longest
    ensures k * (Pop(s, p).now - t0) <= Sum(ds, |ds|) + (k - 1) * longest
  {
    hide Jobs, Sum;
    ClockFollowsHolder(s, ds, k, p);
    if Pop(s, p).now > s.now {
      assert DueOk(s, ds, k, t0, p);
      Scales(k - 1, ds[p], longest);
    }
  }

  lemma ClockFollowsHolder(s: State, ds: seq<nat>, k: nat, p: nat)
    requires Jobs(s, ds, k) && s.running.None? && IsNext(s, p)
    ensures p < |s.procs| == |ds|
    ensures Pop(s, p).now == s.now
         || (s.procs[p].status.Queued? && |s.procs[p].prog| == 1 && Pop(s, p).now == s.procs[p].status.time)
  {
    hide Inv;
    assert JobOk(s, ds, p);
  }

  lemma Scales(k: nat, a: nat, b: nat)
    requires a <= b
    ensures k * a <= k * b
  {
  }

  lemma StepKeepsAccount(s: State, ds: seq<nat>, k: nat, t0: int, longest: nat, p: nat, s': State)
    requires Jobs(s, ds, k) && Account(s, ds, k, t0, longest) && Step(s, p, s')
    requires k > 0 && forall i | 0 <= i < |ds| :: ds[i] <= longest
    ensures Jobs(s', ds, k) && Account(s', ds, k, t0, longest)
  {
    hide Inv, JobOk, DueOk, DoOp;
    if s.running.None? {
      StepOk(s, p, s');
      PopKeepsJobs(s, ds, k, p);
      PopKeepsDue(s, ds, k, t0, longest, p);
      PopKeepsBound(s, ds, k, t0, longest, p);
      if k == 1 || Unstarted(s') {
        if Unstarted(s') {
          var i :| 0 <= i < |s'.procs| && |s'.procs[i].prog| == 3;
          assert |s.procs[i].prog| == 3;
        }
        PopKeepsHeld(s, ds, k, t0, longest, p);
      }
    } else {
      NotLateRunning(s, p);
      OpKeepsAccount(s, ds, k, t0, longest, p, s');
    }
  }

  lemma NotLateRunning(s: State, p: nat)
    requires Inv(s) && s.running == Some(p)
    ensures p < |s.procs| && s.procs[p].status.Running? && |s.hist| == |s.objs|
  {
  }

  // ----- the theorem -----

  /** `|ds|` jobs that are about to start, all at the same time. */
  ghost predicate AllStart(s: State, ds: seq<nat>, k: nat) {
    && Fresh(s) && |s.objs| == 1 && Shared(s.objs[0], k)
    && |s.procs| == |s.cells| == |ds|
    && forall i | 0 <= i < |ds| ::
         s.procs[i] == Proc(JobProg(s.objs[0], i, ds[i]), Queued(s.now, Timer))
  }

  lemma {:induction false} NothingHeldYet(procs: seq<Proc>, ds: seq<nat>, now: int, n: nat)
    requires n <= |procs| == |ds| && forall i | 0 <= i < n :: |procs[i].prog| == 3
    ensures TotalHeld(procs, ds, now, n) == 0 <= Sum(ds, n)
  {
    if n > 0 {
      NothingHeldYet(procs, ds, now, n - 1);
    }
  }

  lemma StartsBalanced(s: State, ds: seq<nat>, k: nat, longest: nat)
    requires AllStart(s, ds, k) && k > 0
    ensures Jobs(s, ds, k) && Account(s, ds, k, s.now, longest)
  {
    FreshOk(s);
    hide Inv;
    assert FreshObj(s.objs[0], s.hist[0]);
    forall i | 0 <= i < |ds| ensures JobOk(s, ds, i) && DueOk(s, ds, k, s.now, i) {
      assert s.procs[i].prog == JobProg(s.objs[0], i, ds[i]);
    }
    NothingHeldYet(s.procs, ds, s.now, |ds|);
    Scales(k - 1, 0, longest);
  }

  lemma {:induction false} JobsRun(run: seq<State>, ds: seq<nat>, k: nat, longest: nat, i: nat)
    requires Run(run) && AllStart(run[0], ds, k) && i < |run|
    requires k > 0 && forall i | 0 <= i < |ds| :: ds[i] <= longest
    ensures Jobs(run[i], ds, k) && Account(run[i], ds, k, run[0].now, longest)
  {
    hide AllStart, Jobs, Account, Step, Run;
    if i == 0 {
      StartsBalanced(run[0], ds, k, longest);
    } else {
      JobsRun(run, ds, k, longest, i - 1);
      RunLeads(run, i);
      var p: nat :| Step(run[i - 1], p, run[i]);
      StepKeepsAccount(run[i - 1], ds, k, run[0].now, longest, p, run[i]);
    }
  }

  lemma SomeHandle(cells: seq<Option<nat>>, o: nat) returns (c: nat)
    requires Handles(cells, o) > 0
    ensures c < |cells| && cells[c] == Some(o)
  {
    assert Some(o) in multiset(cells);
    c :| c < |cells| && cells[c] == Some(o);
  }

  lemma EveryJobDone(s: State, ds: seq<nat>, k: nat, i: nat)
    requires Jobs(s, ds, k) && k > 0 && Quiescent(s) && i < |ds|
    ensures s.procs[i] == Proc([], Ended)
  {
    hide Inv;
    assert JobOk(s, ds, i);
    NotLate(s, i);
    if s.procs[i].status.Blocked? {
      WaitingJob(s, ds, k, i);
      UnitsOut(s, ds, k);
      var c := SomeHandle(s.cells, 0);
      assert JobOk(s, ds, c);
      NotLate(s, c);
    }
  }

  predicate AllEnded(procs: seq<Proc>) {
    forall i | 0 <= i < |procs| :: procs[i] == Proc([], Ended)
  }

  /** Jobs that start together on k units all finish, and
      `k * makespan <= sum + (k - 1) * longest`; on one unit the makespan is the sum. */
  lemma Makespan(run: seq<State>, ds: seq<nat>, k: nat, longest: nat)
    requires Run(run) && AllStart(run[0], ds, k) && Quiescent(run[|run| - 1])
    requires k > 0 && forall i | 0 <= i < |ds| :: ds[i] <= longest
    ensures |run[|run| - 1].procs| == |ds| && AllEnded(run[|run| - 1].procs)
    ensures k * (run[|run| - 1].now - run[0].now) <= Sum(ds, |ds|) + (k - 1) * longest
    ensures k == 1 ==> run[|run| - 1].now - run[0].now == Sum(ds, |ds|)
  {
    hide AllStart, Inv;
    var s := run[|run| - 1];
    JobsRun(run, ds, k, longest, |run| - 1);
    forall i | 0 <= i < |ds| ensures s.procs[i] == Proc([], Ended) {
      EveryJobDone(s, ds, k, i);
    }
    AllHeld(s.procs, ds, s.now, |ds|);
  }

  /** Work conservation: as long as a job has not started, the time since the start,
      times the number of units, is the time the units have been held. */
  lemma NoUnitIdles(run: seq<State>, ds: seq<nat>, k: nat, i: nat, j: nat)
    requires Run(run) && AllStart(run[0], ds, k) && k > 0 && i < |run| && j < |ds|
    requires j < |run[i].procs| && run[i].procs[j].prog == run[0].procs[j].prog
    ensures |run[i].procs| == |ds|
    ensures k * (run[i].now - run[0].now) == TotalHeld(run[i].procs, ds, run[i].now, |ds|)
  {
    var longest := Sum(ds, |ds|);
    forall m | 0 <= m < |ds| ensures ds[m] <= longest {
      PartOfSum(ds, |ds|, m);
    }
    JobsRun(run, ds, k, longest, i);
    assert |run[i].procs[j].prog| == 3;
  }

  lemma {:induction false} PartOfSum(ds: seq<nat>, n: nat, m: nat)
    requires m < n <= |ds|
    ensures ds[m] <= Sum(ds, n)
  {
    if m < n - 1 {
      PartOfSum(ds, n - 1, m);
    }
  }
}
