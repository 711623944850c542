/** What the operations of processes come to over a run, told from the programs: how far
    each has got, and what follows for objects, handles and waiting processes. */
module SyncEffects {
  import opened Options
  import opened SyncMachine
  import opened SyncInvariant
  import opened SyncSteps
  import opened SyncTheorems

  // ----- how far programs have got -----

  /** The operation that the running process has gone past in a step. */
  ghost function Past(s: State, s': State): Option<Op> {
    if s.running.Some? && s.running.value < |s.procs| && s.running.value < |s'.procs| then
      var prog := s.procs[s.running.value].prog;
      if prog != [] && s'.procs[s.running.value].prog == prog[1..] then Some(prog[0]) else None
    else None
  }

  /** The object that an operation is about; that of a release is told by the handle. */
  function On(s: State, op: Op): Option<nat> {
    match op
    case Up(o) => Some(o)
    case Down(o) => Some(o)
    case Lock(o, _) => Some(o)
    case Acquire(o, _) => Some(o)
    case ReleaseUp(o) => Some(o)
    case Put(o, _) => Some(o)
    case Take(o) => Some(o)
    case Release(c) => if c < |s.cells| then s.cells[c] else None
    case _ => None
  }

  /** The operations on `o` that processes have gone past before state `j`, in order. */
  ghost function Ops(run: seq<State>, o: nat, j: nat): seq<Op>
    requires j < |run|
  {
    if j == 0 then []
    else
      var op := Past(run[j - 1], run[j]);
      Ops(run, o, j - 1) + if op.Some? && On(run[j - 1], op.value) == Some(o) then [op.value] else []
  }

  /** What they add up to: units given back less units taken. */
  function Net(ops: seq<Op>): int {
    if ops == [] then 0
    else
      var op := ops[|ops| - 1];
      Net(ops[..|ops| - 1])
      + if op.Up? || op.Release? || op.ReleaseUp? then 1 else if op.Down? || op.Lock? || op.Acquire? then -1 else 0
  }

  function Puts(ops: seq<Op>): seq<int> {
    if ops == [] then []
    else Puts(ops[..|ops| - 1]) + if ops[|ops| - 1].Put? then [ops[|ops| - 1].v] else []
  }

  function Takes(ops: seq<Op>): nat {
    if ops == [] then 0 else Takes(ops[..|ops| - 1]) + if ops[|ops| - 1].Take? then 1 else 0
  }

  /** An object `b` on which `ops` have been done is `b'`. */
  ghost predicate Adds(b: Obj, ops: seq<Op>, b': Obj) {
    match b
    case Event => b'.Event?
    case Semaphore(v, m) => b'.Semaphore? && b'.max == m && b'.value == v + Net(ops)
    case Mutex(owned) => b'.Mutex? && (if b'.owned then 0 else 1) == (if owned then 0 else 1) + Net(ops)
    case Resource(f, n) => b'.Resource? && b'.count == n && b'.free == f + Net(ops)
    case Queue(items, m) =>
      b'.Queue? && b'.maxSize == m && Takes(ops) <= |items + Puts(ops)| && b'.items == (items + Puts(ops))[Takes(ops)..]
  }

  lemma OneMore(ops: seq<Op>, op: Op)
    ensures Net(ops + [op]) == Net(ops) + Net([op])
    ensures Puts(ops + [op]) == Puts(ops) + Puts([op]) && Takes(ops + [op]) == Takes(ops) + Takes([op])
    ensures |Puts([op])| + Takes([op]) <= 1
  {
    assert (ops + [op])[..|ops|] == ops && [op][..0] == [];
  }

  lemma SuffixMore(all: seq<int>, more: seq<int>, a: nat, b: nat)
    requires a <= |all| && b <= |all[a..] + more|
    ensures a + b <= |all + more| && (all[a..] + more)[b..] == (all + more)[a + b..]
  {
  }

  lemma AddsMore(b: Obj, ops: seq<Op>, b1: Obj, op: Op, b2: Obj)
    requires Adds(b, ops, b1) && Adds(b1, [op], b2)
    ensures Adds(b, ops + [op], b2)
  {
    OneMore(ops, op);
    hide Net, Puts, Takes;
    if b.Queue? {
      SuffixMore(b.items + Puts(ops), Puts([op]), Takes(ops), Takes([op]));
      assert b.items + Puts(ops) + Puts([op]) == b.items + (Puts(ops) + Puts([op]));
    }
  }

  // ----- one step, as seen from an object -----

  /** What an operation does to its object when a process goes past it. */
  lemma ChangeAdds(b: Obj, op: Op)
    requires Guarded(op) && Fits(b, op) && Guard(b, op)
    ensures Adds(b, [op], Change(b, op))
  {
    assert [op][..0] == [];
    if b.Queue? {
      assert Puts([op]) == if op.Put? then [op.v] else [];
      assert b.items + [] == b.items;
    }
  }

  lemma PassObjs(s: State, p: nat, op: Op, rest: seq<Op>)
    requires WF(s) && p < |s.procs| && Guarded(op) && Typed(s.objs, |s.cells|, op) && Guard(s.objs[op.o], op)
    ensures var r := Pass(s, p, op, rest);
      r.objs == s.objs[op.o := Change(s.objs[op.o], op)] && |r.procs| == |s.procs| && r.procs[p].prog == rest
  {
    hide Guard, Change, Note;
  }

  /** The operation at the head of the running process's program, when it takes its turn. */
  ghost predicate Turn(s: State, p: nat, s': State) {
    Step(s, p, s') && s.running == Some(p) && s.procs[p].prog != []
  }

  lemma TurnTyped(s: State, p: nat, s': State)
    requires Turn(s, p, s')
    ensures WF(s) && p < |s.procs| && s.running == Some(p) && s.procs[p].prog != []
    ensures Typed(s.objs, |s.cells|, s.procs[p].prog[0]) && s' == DoOp(s, p)
  {
    assert ProgOk(s.objs, |s.cells|, s.procs[p].prog);
  }

  /** In a step an object only changes by an operation on it that a process goes past. */
  ghost predicate ObjStep(s: State, s': State, o: nat)
    requires o < |s.objs| == |s'.objs|
  {
    var op := Past(s, s');
    if op.Some? && On(s, op.value) == Some(o) then Adds(s.objs[o], [op.value], s'.objs[o])
    else s'.objs[o] == s.objs[o]
  }

  lemma GuardedObjs(s: State, p: nat, s': State, o: nat)
    requires Inv(s) && Turn(s, p, s') && o < |s.objs| && Guarded(s.procs[p].prog[0])
    ensures |s'.objs| == |s.objs| && ObjStep(s, s', o)
  {
    TurnTyped(s, p, s');
    hide Inv, Step, Adds;
    var op, rest := s.procs[p].prog[0], s.procs[p].prog[1..];
    assert rest != s.procs[p].prog;
    if Guard(s.objs[op.o], op) {
      PassObjs(s, p, op, rest);
      ChangeAdds(s.objs[op.o], op);
      TurnPasses(s, p, s');
      SameProgs(s, p, op, rest);
      hide DoOp, Pass, Guard, Change;
    } else {
      hide Guard;
      assert s'.procs[p].prog == s.procs[p].prog;
    }
  }

  lemma TurnObjs(s: State, p: nat, s': State, o: nat)
    requires Inv(s) && Turn(s, p, s') && o < |s.objs|
    ensures |s'.objs| == |s.objs| && ObjStep(s, s', o)
  {
    TurnTyped(s, p, s');
    hide Inv, Step, Adds;
    var op := s.procs[p].prog[0];
    if Guarded(op) {
      GuardedObjs(s, p, s', o);
    } else if op.Release? {
      ReleaseObjs(s, p, s', o);
    }
  }

  lemma TurnPasses(s: State, p: nat, s': State)
    requires Turn(s, p, s') && Guarded(s.procs[p].prog[0])
    requires Typed(s.objs, |s.cells|, s.procs[p].prog[0]) && Guard(s.objs[s.procs[p].prog[0].o], s.procs[p].prog[0])
    ensures s' == Pass(s, p, s.procs[p].prog[0], s.procs[p].prog[1..])
  {
    hide Pass, Guard;
  }

  lemma ReleaseObjs(s: State, p: nat, s': State, o: nat)
    requires Inv(s) && Turn(s, p, s') && o < |s.objs| && s.procs[p].prog[0].Release?
    ensures |s'.objs| == |s.objs| && ObjStep(s, s', o)
  {
    TurnTyped(s, p, s');
    var c, rest := s.procs[p].prog[0].cell, s.procs[p].prog[1..];
    assert CellOk(s.objs, s.cells[c]);
    assert [Release(c)][..0] == [];
    if s.cells[c].Some? && s.objs[s.cells[c].value].Mutex? {
      ReleasedWasOwned(s, c);
    }
    assert |[ReleaseUp(0)] + rest| != |rest|;
  }

  /** A mutex with a valid handle is owned. */
  lemma ReleasedWasOwned(s: State, c: nat)
    requires Inv(s) && c < |s.cells| && s.cells[c].Some? && s.cells[c].value < |s.objs|
    requires s.objs[s.cells[c].value].Mutex?
    ensures s.objs[s.cells[c].value].owned
  {
    var o := s.cells[c].value;
    MutexAccount(s, o);
    assert s.cells == s.cells[..c] + [s.cells[c]] + s.cells[c + 1..];
  }

  lemma StepObjs(s: State, p: nat, s': State, o: nat)
    requires Inv(s) && Step(s, p, s') && o < |s.objs|
    ensures |s'.objs| == |s.objs| && ObjStep(s, s', o)
  {
    if s.running.Some? && s.procs[p].prog != [] {
      TurnObjs(s, p, s', o);
    }
  }

  lemma AddsNothing(b: Obj)
    ensures Adds(b, [], b)
  {
    if b.Queue? { assert (b.items + [])[0..] == b.items; }
  }

  /** In every run an object is what the operations make it that processes have gone past:
      a semaphore has its initial value plus ups less downs; a resource all units but those
      acquired and not given back; a mutex is free unless one lock more was taken than
      released; a queue holds the items put, in order, without as many of the first as were
      taken. */
  lemma {:induction false} ObjectsFollowPrograms(run: seq<State>, o: nat, j: nat)
    requires Run(run) && Fresh(run[0]) && j < |run| && o < |run[0].objs|
    ensures |run[j].objs| == |run[0].objs| && Adds(run[0].objs[o], Ops(run, o, j), run[j].objs[o])
  {
    hide Inv, Step, Fresh, Adds, Past;
    if j == 0 {
      AddsNothing(run[0].objs[o]);
    } else {
      ObjectsFollowPrograms(run, o, j - 1);
      FreshOk(run[0]);
      RunKeeps(run, j - 1);
      RunLeads(run, j);
      var p: nat :| Step(run[j - 1], p, run[j]);
      StepObjs(run[j - 1], p, run[j], o);
      var op := Past(run[j - 1], run[j]);
      if op.Some? && On(run[j - 1], op.value) == Some(o) {
        AddsMore(run[0].objs[o], Ops(run, o, j - 1), run[j - 1].objs[o], op.value, run[j].objs[o]);
      } else {
        assert Ops(run, o, j) == Ops(run, o, j - 1) + [] == Ops(run, o, j - 1);
        assert run[j].objs[o] == run[j - 1].objs[o];
      }
    }
  }

  // ----- passing or waiting -----

  /** The running process goes past a guarded operation if its object does not refuse it, and
      otherwise suspends on the object's event with no latency. */
  lemma PassesUnlessRefused(s: State, p: nat, s': State)
    requires Inv(s) && Turn(s, p, s') && Guarded(s.procs[p].prog[0])
    ensures var op := s.procs[p].prog[0];
      && op.o < |s.objs| && op.o < |s.hist| && p < |s'.procs|
      && if Refuses(s.objs[op.o], op)
         then s' == s.(running := None, procs := s'.procs, hist := s'.hist)
              && s'.procs == s.procs[p := Proc(s.procs[p].prog, Blocked(op.o, 0, |s.hist[op.o].wakes|))]
         else Past(s, s') == Some(op) && s'.running == Some(p)
  {
    TurnTyped(s, p, s');
    hide Inv, Step;
    var op := s.procs[p].prog[0];
    RefusesIs(s, p);
    if Guard(s.objs[op.o], op) {
      TurnPasses(s, p, s');
      SameProgs(s, p, op, s.procs[p].prog[1..]);
      hide DoOp, Pass, Guard;
    } else {
      hide Guard;
    }
  }

  lemma RefusesIs(s: State, p: nat)
    requires At(s, p) && Guarded(s.procs[p].prog[0])
    ensures var op := s.procs[p].prog[0];
      Typed(s.objs, |s.cells|, op) && (Refuses(s.objs[op.o], op) <==> !Guard(s.objs[op.o], op))
  {
    HeadTyped(s, p);
    var op := s.procs[p].prog[0];
    if op.ReleaseUp? { ReleaseHasRoom(s, p); }
    assert Conserved(s.objs[op.o], s.hist[op.o], Out(s, op.o, Debt(s)));
  }

  // ----- handles -----

  /** What `op` does to the handles when a process goes past it: a lock or an acquisition of
      `o` leaves the handle in its cell, a move exchanges two cells, a release or the end
      of a handle's life leaves nothing. */
  function HandlesAfter(cells: seq<Option<nat>>, op: Op): seq<Option<nat>> {
    seq(|cells|, i requires 0 <= i < |cells| =>
      match op
      case Lock(o, c) => if i == c then Some(o) else cells[i]
      case Acquire(o, c) => if i == c then Some(o) else cells[i]
      case Move(c, t) =>
        if i == c && t < |cells| then cells[t] else if i == t && c < |cells| then cells[c] else cells[i]
      case Drop(c) => if i == c then None else cells[i]
      case Release(c) => if i == c then None else cells[i]
      case _ => cells[i])
  }

  lemma PassCells(s: State, p: nat, op: Op, rest: seq<Op>)
    requires WF(s) && p < |s.procs| && Guarded(op) && Typed(s.objs, |s.cells|, op) && Guard(s.objs[op.o], op)
    ensures Pass(s, p, op, rest).cells == HandlesAfter(s.cells, op)
  {
    hide Guard, Change, Note;
  }

  /** In a step the handles change exactly as the operation says that was carried out. The
      handle of a resource is given up before its unit, in a step of its own. */
  lemma HandlesFollowPrograms(s: State, p: nat, s': State)
    requires Inv(s) && Turn(s, p, s')
    ensures var op := s.procs[p].prog[0];
      s'.cells == if Past(s, s') == Some(op) || op.Release? then HandlesAfter(s.cells, op) else s.cells
  {
    TurnTyped(s, p, s');
    hide Inv, Step;
    var op, rest := s.procs[p].prog[0], s.procs[p].prog[1..];
    assert rest != s.procs[p].prog;
    if Guarded(op) {
      if Guard(s.objs[op.o], op) {
        TurnPasses(s, p, s');
        SameProgs(s, p, op, rest);
        PassCells(s, p, op, rest);
        hide DoOp, Pass, Guard, HandlesAfter;
      } else {
        hide Guard, HandlesAfter;
      }
    } else {
      OtherCells(s, p, s');
    }
  }

  lemma OtherCells(s: State, p: nat, s': State)
    requires WF(s) && p < |s.procs| && s.procs[p].prog != [] && !Guarded(s.procs[p].prog[0]) && s' == DoOp(s, p)
    requires Typed(s.objs, |s.cells|, s.procs[p].prog[0]) && s.running == Some(p)
    ensures var op := s.procs[p].prog[0];
      s'.cells == if Past(s, s') == Some(op) || op.Release? then HandlesAfter(s.cells, op) else s.cells
  {
    var op := s.procs[p].prog[0];
    var want := HandlesAfter(s.cells, op);
    if op.Release? {
      assert CellOk(s.objs, s.cells[op.cell]);
      assert s'.cells == want;
    } else if op.Drop? {
      assert CellOk(s.objs, s.cells[op.cell]);
      assert s'.cells == want;
    } else if op.Move? {
      assert s'.cells == want;
    } else {
      assert want == s.cells;
    }
  }

  // ----- who is woken -----

  /** Everybody registered with `o` is queued for now plus the own latency, and nobody else
      is touched. */
  ghost predicate WokenBy(s: State, s': State, p: nat, o: nat) {
    && |s'.procs| == |s.procs|
    && forall q | 0 <= q < |s.procs| && q != p ::
         s'.procs[q] == match s.procs[q].status
                        case Blocked(b, latency, since) =>
                          if b == o then Proc(s.procs[q].prog, Queued(s.now + latency, Woken(o, latency, since)))
                          else s.procs[q]
                        case _ => s.procs[q]
  }

  ghost predicate NobodyWoken(s: State, s': State, p: nat) {
    |s'.procs| == |s.procs| && forall q | 0 <= q < |s.procs| && q != p :: s'.procs[q] == s.procs[q]
  }

  /** The object whose event an operation wakes when a process goes past it: any that makes
      room, or puts something in, and a plain wake; taking a mutex wakes nobody. */
  function Wakes(s: State, op: Op): Option<nat> {
    match op
    case Wake(o) => Some(o)
    case Up(o) => Some(o)
    case Down(o) => Some(o)
    case Acquire(o, _) => Some(o)
    case ReleaseUp(o) => Some(o)
    case Put(o, _) => Some(o)
    case Take(o) => Some(o)
    case Release(c) => if c < |s.cells| then s.cells[c] else None
    case _ => None
  }

  lemma WakeAllWakes(s: State, p: nat, o: nat, r: State)
    requires o < |s.hist| && r.procs == WakeAll(s, o).procs
    ensures WokenBy(s, r, p, o)
  {
  }

  lemma PassWakes(s: State, p: nat, op: Op, rest: seq<Op>)
    requires WF(s) && p < |s.procs| && Guarded(op) && Typed(s.objs, |s.cells|, op) && Guard(s.objs[op.o], op)
    ensures if op.Lock? then NobodyWoken(s, Pass(s, p, op, rest), p) else WokenBy(s, Pass(s, p, op, rest), p, op.o)
  {
    hide Guard, Change, Note;
    var s1 := SetObj(SetProg(s, p, rest), op.o, op);
    if !op.Lock? { WakeAllWakes(s1, p, op.o, Pass(s, p, op, rest)); }
  }

  /** Going past an operation wakes everybody registered with the event of its object, each
      for its own latency from now, and nobody else; what does not go past wakes nobody. */
  lemma WakesEverybody(s: State, p: nat, s': State)
    requires Inv(s) && Turn(s, p, s')
    ensures s'.now == s.now
    ensures var op := s.procs[p].prog[0];
      if Past(s, s') == Some(op) && Wakes(s, op).Some? then WokenBy(s, s', p, Wakes(s, op).value)
      else NobodyWoken(s, s', p)
  {
    TurnTyped(s, p, s');
    hide Inv, Step;
    var op, rest := s.procs[p].prog[0], s.procs[p].prog[1..];
    assert rest != s.procs[p].prog;
    if Guarded(op) {
      if Guard(s.objs[op.o], op) {
        TurnPasses(s, p, s');
        SameProgs(s, p, op, rest);
        PassWakes(s, p, op, rest);
        PassNow(s, p, op, rest);
        hide DoOp, Pass, Guard, WokenBy, NobodyWoken;
      } else {
        hide Guard;
      }
    } else {
      OtherWakes(s, p, s');
    }
  }

  lemma PassNow(s: State, p: nat, op: Op, rest: seq<Op>)
    requires WF(s) && p < |s.procs| && Guarded(op) && Typed(s.objs, |s.cells|, op) && Guard(s.objs[op.o], op)
    ensures Pass(s, p, op, rest).now == s.now
  {
    hide Guard, Change, Note;
  }

  lemma OtherWakes(s: State, p: nat, s': State)
    requires WF(s) && p < |s.procs| && s.procs[p].prog != [] && !Guarded(s.procs[p].prog[0]) && s' == DoOp(s, p)
    requires Typed(s.objs, |s.cells|, s.procs[p].prog[0]) && s.running == Some(p)
    ensures s'.now == s.now
    ensures var op := s.procs[p].prog[0];
      if Past(s, s') == Some(op) && Wakes(s, op).Some? then WokenBy(s, s', p, Wakes(s, op).value)
      else NobodyWoken(s, s', p)
  {
    var op, rest := s.procs[p].prog[0], s.procs[p].prog[1..];
    if op.Release? {
      assert CellOk(s.objs, s.cells[op.cell]);
      assert |[ReleaseUp(0)] + rest| != |rest|;
    }
  }

  // ----- events, delays, and what is waited for in the end -----

  /** Process `p` is about to do `op`. */
  ghost predicate Doing(s: State, p: nat, op: Op) {
    s.running == Some(p) && p < |s.procs| && s.procs[p].prog != [] && s.procs[p].prog[0] == op
  }

  /** Somebody is about to wake `o`. */
  ghost predicate Waking(s: State, o: nat) {
    exists p: nat :: Doing(s, p, Wake(o))
  }

  lemma DoingTurns(run: seq<State>, i: nat, p: nat, op: Op)
    requires Run(run) && Fresh(run[0]) && i + 1 < |run| && Doing(run[i], p, op)
    ensures Inv(run[i]) && Turn(run[i], p, run[i + 1])
  {
    hide Inv, Step, Fresh;
    FreshOk(run[0]);
    RunKeeps(run, i);
    RunLeads(run, i + 1);
    RunningLeads(run[i], run[i + 1], p);
  }

  /** A wake that is carried out leaves nobody registered with its event: whoever was is
      queued for now plus the own latency. It is recorded, and the process goes on. */
  lemma WakeWakes(run: seq<State>, i: nat, p: nat, o: nat)
    requires Run(run) && Fresh(run[0]) && i + 1 < |run| && Doing(run[i], p, Wake(o))
    ensures var s, s' := run[i], run[i + 1];
      && WokenBy(s, s', p, o) && BlockedOn(s'.procs, o) == {}
      && o < |s.hist| == |s'.hist| && s'.hist[o].wakes == s.hist[o].wakes + [s.now]
      && s'.running == Some(p) && s'.procs[p].prog == s.procs[p].prog[1..]
      && s'.now == s.now && s'.objs == s.objs && s'.cells == s.cells
  {
    DoingTurns(run, i, p, Wake(o));
    TurnTyped(run[i], p, run[i + 1]);
    WakesEverybody(run[i], p, run[i + 1]);
    assert ProcOk(run[i], p, None);
  }

  /** A process that waits for an event is registered with the latency given, and one that
      delays is queued for that much later; nothing else happens. */
  lemma SuspendsOnly(s: State, p: nat, s': State)
    requires Inv(s) && Turn(s, p, s') && (s.procs[p].prog[0].Wait? || s.procs[p].prog[0].Delay?)
    ensures s'.running.None? && s'.now == s.now && s'.objs == s.objs && s'.cells == s.cells && NobodyWoken(s, s', p)
    ensures p < |s'.procs| && s'.procs[p].prog == s.procs[p].prog[1..]
    ensures match s.procs[p].prog[0]
      case Wait(o, latency) => exists since :: s'.procs[p].status == Blocked(o, latency, since)
      case Delay(d) => s'.procs[p].status == Queued(s.now + d, Timer)
      case _ => false
  {
    TurnTyped(s, p, s');
    if s.procs[p].prog[0].Wait? {
      var o := s.procs[p].prog[0].o;
      assert s'.procs[p].status == Blocked(o, s.procs[p].prog[0].latency, |s.hist[o].wakes|);
    }
  }

  lemma OnlyWakeWakes(s: State, op: Op, o: nat)
    requires WF(s) && Typed(s.objs, |s.cells|, op) && Wakes(s, op) == Some(o) && o < |s.objs| && s.objs[o].Event?
    ensures op == Wake(o)
  {
    assert op.Release? ==> CellOk(s.objs, s.cells[op.cell]);
  }

  /** A process registered with a plain event stays so in every step but a wake of it. */
  lemma StaysRegistered(s: State, q: nat, s': State, p: nat, o: nat)
    requires Inv(s) && Step(s, q, s') && p < |s.procs| && s.procs[p].status.Blocked? && s.procs[p].status.o == o
    requires o < |s.objs| && s.objs[o].Event? && !Waking(s, o)
    ensures p < |s'.procs| && s'.procs[p] == s.procs[p]
  {
    assert ProcOk(s, p, None);
    if s.running.Some? {
      assert q != p;
      if s.procs[q].prog != [] {
        TurnTyped(s, q, s');
        var op := s.procs[q].prog[0];
        WakesEverybody(s, q, s');
        assert Doing(s, q, op);
        if Wakes(s, op) == Some(o) {
          OnlyWakeWakes(s, op, o);
          assert false;
        }
      }
    }
  }

  lemma KeepsEvents(run: seq<State>, o: nat, j: nat)
    requires Run(run) && Fresh(run[0]) && j < |run| && o < |run[0].objs|
    ensures Inv(run[j]) && |run[j].objs| == |run[0].objs| && (run[j].objs[o].Event? <==> run[0].objs[o].Event?)
  {
    hide Inv, Step, Fresh;
    FreshOk(run[0]);
    RunKeeps(run, j);
    ObjectsFollowPrograms(run, o, j);
  }

  /** Registered from `i` on, with no wake of the event up to `j`. */
  ghost predicate Unwoken(run: seq<State>, i: nat, j: nat, p: nat, o: nat, latency: nat)
    requires j <= |run|
  {
    && i < j && Doing(run[i], p, Wait(o, latency))
    && forall m | i < m < j ::
         !Waking(run[m], o) && p < |run[m].procs| && run[m].procs[p].status.Blocked?
         && run[m].procs[p].status.o == o && run[m].procs[p].status.latency == latency
  }

  lemma Leaves(run: seq<State>, i: nat) returns (q: nat)
    requires Run(run) && Fresh(run[0]) && i + 1 < |run|
    ensures Inv(run[i]) && Step(run[i], q, run[i + 1])
  {
    hide Inv, Step, Fresh;
    FreshOk(run[0]);
    RunKeeps(run, i);
    RunLeads(run, i + 1);
    q :| Step(run[i], q, run[i + 1]);
  }

  /** A process that waits for a plain event from `i` on is registered until somebody is
      about to wake the event. */
  lemma {:induction false} RegisteredUntil(run: seq<State>, i: nat, j: nat, p: nat, o: nat, latency: nat)
    requires Run(run) && Fresh(run[0]) && i < j < |run| && Doing(run[i], p, Wait(o, latency))
    requires o < |run[0].objs| && run[0].objs[o].Event? && forall m | i < m < j :: !Waking(run[m], o)
    ensures Unwoken(run, i, j, p, o, latency)
    ensures p < |run[j].procs| && run[j].procs[p].status.Blocked?
    ensures run[j].procs[p].status.o == o && run[j].procs[p].status.latency == latency
    decreases j - i
  {
    hide Inv, Step, Fresh, Waking, Run;
    if j == i + 1 {
      DoingTurns(run, i, p, Wait(o, latency));
      SuspendsOnly(run[i], p, run[j]);
    } else {
      RegisteredUntil(run, i, j - 1, p, o, latency);
      KeepsEvents(run, o, j - 1);
      var q := Leaves(run, j - 1);
      StaysRegistered(run[j - 1], q, run[j], p, o);
    }
  }

  /** A process that waits for a plain event is queued by the next wake of it, for the time of
      that wake plus the latency that it gave when it began to wait. */
  lemma WaitEndsByWake(run: seq<State>, i: nat, j: nat, p: nat, q: nat, o: nat, latency: nat)
    requires Run(run) && Fresh(run[0]) && i < j && j + 1 < |run| && Doing(run[i], p, Wait(o, latency))
    requires o < |run[0].objs| && run[0].objs[o].Event?
    requires Doing(run[j], q, Wake(o)) && forall m | i < m < j :: !Waking(run[m], o)
    ensures p < |run[j + 1].procs| && run[j + 1].procs[p].status.Queued?
    ensures run[j + 1].procs[p].status.time == run[j].now + latency
  {
    hide Inv, Step, Fresh, Waking, Run;
    RegisteredUntil(run, i, j, p, o, latency);
    WakeWakes(run, j, q, o);
    DoingTurns(run, j, q, Wake(o));
    assert q != p by { RunningIs(run[j], q); }
  }

  lemma RunningIs(s: State, q: nat)
    requires Inv(s) && s.running == Some(q)
    ensures q < |s.procs| && s.procs[q].status.Running?
  {
  }

  lemma FreshIsQueued(s: State, p: nat)
    requires Fresh(s) && p < |s.procs|
    ensures s.procs[p].status.Queued?
  {
    assert FreshProc(s.procs[p], s.now);
  }

  /** Whoever is registered with a plain event began to wait after the last wake of it that
      was carried out. */
  lemma {:induction false} WaitsSinceLastWake(run: seq<State>, j: nat, p: nat) returns (i: nat)
    requires Run(run) && Fresh(run[0]) && j < |run| && p < |run[j].procs| && run[j].procs[p].status.Blocked?
    requires var o := run[j].procs[p].status.o; o < |run[0].objs| && run[0].objs[o].Event?
    ensures Unwoken(run, i, j, p, run[j].procs[p].status.o, run[j].procs[p].status.latency)
  {
    hide Inv, Step, Run, Waking;
    if j == 0 {
      FreshIsQueued(run[0], p);
      assert false;
    } else {
      var st := run[j].procs[p].status;
      KeepsEvents(run, st.o, j - 1);
      var q := Leaves(run, j - 1);
      hide Fresh;
      if Doing(run[j - 1], p, Wait(st.o, st.latency)) && q == p {
        i := j - 1;
      } else {
        RegisteredBefore(run[j - 1], q, run[j], p, st.o, st.latency);
        i := WaitsSinceLastWake(run, j - 1, p);
      }
    }
  }

  /** A process that is registered after a step in which it did not begin to wait was so
      before, and the step was no wake of the event. */
  lemma RegisteredBefore(s: State, q: nat, s': State, p: nat, o: nat, latency: nat)
    requires Inv(s) && Step(s, q, s') && p < |s'.procs| && o < |s.objs| && s.objs[o].Event?
    requires s'.procs[p].status.Blocked? && s'.procs[p].status.o == o && s'.procs[p].status.latency == latency
    requires !(Doing(s, p, Wait(o, latency)) && q == p)
    ensures p < |s.procs| && s.procs[p] == s'.procs[p] && !Waking(s, o)
  {
    if s.running.None? {
    } else if s.procs[q].prog == [] {
    } else {
      TurnTyped(s, q, s');
      WakesEverybody(s, q, s');
      var op := s.procs[q].prog[0];
      if p == q {
        RunsOrWaits(s, p, s');
        assert false;
      }
      if w: nat :| Doing(s, w, Wake(o)) {
        assert w == q && op == Wake(o);
        WakePast(s, q, s', o);
        assert false;
      }
    }
  }

  lemma WakePast(s: State, q: nat, s': State, o: nat)
    requires Inv(s) && Turn(s, q, s') && s.procs[q].prog[0] == Wake(o)
    ensures Past(s, s') == Some(Wake(o))
  {
    TurnTyped(s, q, s');
  }

  /** The running process can only become registered with an event that it waits for, or that
      of an object that refuses it. */
  lemma RunsOrWaits(s: State, p: nat, s': State)
    requires Inv(s) && Turn(s, p, s') && p < |s'.procs| && s'.procs[p].status.Blocked?
    ensures var op, st := s.procs[p].prog[0], s'.procs[p].status;
      st.o < |s.objs| && (op == Wait(st.o, st.latency) || (Guarded(op) && op.o == st.o && !s.objs[st.o].Event?))
  {
    TurnTyped(s, p, s');
    RunningIs(s, p);
    hide Inv;
    var op := s.procs[p].prog[0];
    if Guarded(op) {
      PassesUnlessRefused(s, p, s');
      if !Refuses(s.objs[op.o], op) {
        PassesRunning(s, p, s');
      }
    } else if op.Release? {
      ReleaseStatus(s, p, op.cell, s.procs[p].prog[1..]);
    }
  }

  lemma ReleaseStatus(s: State, p: nat, c: nat, rest: seq<Op>)
    requires WF(s) && p < |s.procs| && c < |s.cells| && s.procs[p].status.Running?
    ensures p < |ReleaseHandle(s, p, c, rest).procs| && !ReleaseHandle(s, p, c, rest).procs[p].status.Blocked?
  {
    assert CellOk(s.objs, s.cells[c]);
  }

  lemma PassesRunning(s: State, p: nat, s': State)
    requires Inv(s) && Turn(s, p, s') && Guarded(s.procs[p].prog[0])
    requires Typed(s.objs, |s.cells|, s.procs[p].prog[0]) && !Refuses(s.objs[s.procs[p].prog[0].o], s.procs[p].prog[0])
    ensures p < |s'.procs| && s'.procs[p].status == s.procs[p].status
  {
    RefusesIs(s, p);
    TurnPasses(s, p, s');
    RunningIs(s, p);
    PassStatus(s, p, s.procs[p].prog[0], s.procs[p].prog[1..]);
  }

  lemma PassStatus(s: State, p: nat, op: Op, rest: seq<Op>)
    requires WF(s) && p < |s.procs| && Guarded(op) && Typed(s.objs, |s.cells|, op) && Guard(s.objs[op.o], op)
    requires s.procs[p].status.Running?
    ensures Pass(s, p, op, rest).procs[p].status.Running?
  {
    hide Guard, Change, Note;
  }

  /** When no token is left, every process has ended, or is refused what it waits for, or
      waits for a plain event since after the last wake of that event. */
  lemma QuiescentMeansRefused(run: seq<State>, j: nat, p: nat)
    requires Run(run) && Fresh(run[0]) && j < |run| && Quiescent(run[j]) && p < |run[j].procs|
    ensures var s := run[j];
      match s.procs[p].status
      case Blocked(o, latency, _) =>
        && o < |s.objs|
        && if s.objs[o].Event? then exists i: nat :: Unwoken(run, i, j, p, o, latency)
           else s.procs[p].prog != [] && Refuses(s.objs[o], s.procs[p].prog[0])
      case Ended => true
      case Failed => true
      case _ => false
  {
    var s := run[j];
    PrefixReaches(run, j);
    if s.procs[p].status.Blocked? {
      NoLostWakeup(s, p);
      var o := s.procs[p].status.o;
      SameObjects(run, j);
      KeepsEvents(run, o, j);
      if s.objs[o].Event? {
        var i := WaitsSinceLastWake(run, j, p);
      }
    } else {
      ReachableOk(s);
      assert ProcOk(s, p, None);
    }
  }

  lemma PrefixReaches(run: seq<State>, j: nat)
    requires Run(run) && Fresh(run[0]) && j < |run|
    ensures Reachable(run[j])
  {
    hide Leads, Fresh;
    var part := run[..j + 1];
    forall i | 0 <= i < |part| - 1 ensures Leads(part[i], part[i + 1]) {
      assert part[i] == run[i] && part[i + 1] == run[i + 1] && Leads(run[i], run[i + 1]);
    }
    assert Run(part) && part[|part| - 1] == run[j];
  }

  lemma {:induction false} SameObjects(run: seq<State>, j: nat)
    requires Run(run) && Fresh(run[0]) && j < |run|
    ensures |run[j].objs| == |run[0].objs|
  {
    hide Inv, Step, Fresh;
    if j > 0 {
      SameObjects(run, j - 1);
      var q := Leaves(run, j - 1);
      CountKept(run[j - 1], q, run[j]);
    }
  }

  lemma CountKept(s: State, p: nat, s': State)
    requires Inv(s) && Step(s, p, s')
    ensures |s'.objs| == |s.objs|
  {
    if |s.objs| > 0 {
      StepObjs(s, p, s', 0);
    } else if s.running.Some? && s.procs[p].prog != [] {
      TurnTyped(s, p, s');
    }
  }

  // ----- delays -----

  /** The token of a delay is queued until its process is resumed. */
  lemma {:induction false} DelayPending(run: seq<State>, i: nat, j: nat, p: nat, d: nat)
    requires Run(run) && Fresh(run[0]) && i < j < |run| && Doing(run[i], p, Delay(d)) && Sleeps(run, i + 1, j + 1, p)
    ensures p < |run[j].procs| && run[j].procs[p].status == Queued(run[i].now + d, Timer)
    decreases j
  {
    hide Inv, Step, Fresh, Run;
    if j == i + 1 {
      DoingTurns(run, i, p, Delay(d));
      SuspendsOnly(run[i], p, run[j]);
    } else {
      DelayPending(run, i, j - 1, p, d);
      var q := Leaves(run, j - 1);
      QueuedStays(run[j - 1], q, run[j], p);
    }
  }

  lemma QueuedStays(s: State, q: nat, s': State, p: nat)
    requires Inv(s) && Step(s, q, s') && p < |s.procs| && s.procs[p].status.Queued?
    requires s.running != Some(p) && s'.running != Some(p)
    ensures p < |s'.procs| && s'.procs[p] == s.procs[p]
  {
    hide DoOp;
    assert q != p;
    OthersStay(s, q, s', p);
  }

  /** A process that delays goes on exactly when the delay is over. */
  lemma DelayEnds(run: seq<State>, i: nat, j: nat, p: nat, d: nat)
    requires Run(run) && Fresh(run[0]) && i + 1 < j < |run| && Doing(run[i], p, Delay(d))
    requires Sleeps(run, i + 1, j, p) && run[j].running == Some(p)
    ensures run[j].now == run[i].now + d
  {
    hide Inv, Step, Fresh, Run;
    DelayPending(run, i, j - 1, p, d);
    var q := Leaves(run, j - 1);
    RunningStays(run[j - 1], q, run[j], p);
    NotLate(run[j - 1], p);
  }

  lemma NotLate(s: State, p: nat)
    requires Inv(s) && p < |s.procs| && s.procs[p].status.Queued?
    ensures s.now <= s.procs[p].status.time
  {
    assert ProcOk(s, p, None);
  }

  // ----- the other steps -----

  /** Releasing an invalid handle ends the process as failed; a process without operations
      left has ended. In both cases nothing else happens. */
  lemma EndsOnly(s: State, p: nat, s': State)
    requires Inv(s) && Step(s, p, s') && s.running == Some(p)
    requires s.procs[p].prog == [] ||
      (s.procs[p].prog[0].Release? && s.procs[p].prog[0].cell < |s.cells| && s.cells[s.procs[p].prog[0].cell].None?)
    ensures s' == s.(running := None, procs := s'.procs) && NobodyWoken(s, s', p) && p < |s'.procs|
    ensures s'.procs[p] == Proc(s.procs[p].prog, if s.procs[p].prog == [] then Ended else Failed)
  {
  }

  /** When nobody runs, a process whose token is among the earliest goes on, at its time, and
      nothing else happens. */
  lemma ResumesOnly(s: State, p: nat, s': State)
    requires Inv(s) && Step(s, p, s') && s.running.None?
    ensures IsNext(s, p) && s'.running == Some(p) && s'.now == s.procs[p].status.time >= s.now
    ensures NobodyWoken(s, s', p) && p < |s'.procs| && s'.procs[p] == Proc(s.procs[p].prog, Running)
    ensures s'.objs == s.objs && s'.cells == s.cells && s'.hist == s.hist
  {
    NotLate(s, p);
  }
}
