/** Every step of the synchronisation machine keeps its invariant. */
module SyncSteps {
  import opened Options
  import opened SyncMachine
  import opened SyncInvariant

  /** The running process is at an operation of its program. */
  ghost predicate At(s: State, p: nat) {
    Inv(s) && p < |s.procs| && s.running == Some(p) && s.procs[p].prog != []
  }

  lemma HeadTyped(s: State, p: nat)
    requires At(s, p)
    ensures Typed(s.objs, |s.cells|, s.procs[p].prog[0])
    ensures ProgOk(s.objs, |s.cells|, s.procs[p].prog[1..])
    ensures NoReleaseUp(s.procs[p].prog[1..])
  {
    assert ProgOk(s.objs, |s.cells|, s.procs[p].prog);
    assert Placed(s, p);
  }

  predicate NoReleaseUp(prog: seq<Op>) {
    forall i | 0 <= i < |prog| :: !prog[i].ReleaseUp?
  }

  /** Nobody is half-way through a release once `p` has left that operation. */
  lemma Settled(s: State, p: nat, r: State)
    requires WF(r) && PlacedAll(s) && p < |s.procs| == |r.procs| && s.running == Some(p)
    requires r.running == Some(p) || r.running == None
    requires NoReleaseUp(r.procs[p].prog)
    requires forall q | 0 <= q < |s.procs| && q != p :: r.procs[q].prog == s.procs[q].prog
    ensures PlacedAll(r) && Debt(r) == multiset{}
  {
    forall q | 0 <= q < |r.procs| ensures Placed(r, q) {
      assert Placed(s, q);
    }
  }

  /** A release never waits: the unit on its way back is missing from the resource. */
  lemma ReleaseHasRoom(s: State, p: nat)
    requires At(s, p) && s.procs[p].prog[0].ReleaseUp?
    ensures Typed(s.objs, |s.cells|, s.procs[p].prog[0])
    ensures Guard(s.objs[s.procs[p].prog[0].o], s.procs[p].prog[0])
  {
    HeadTyped(s, p);
    var o := s.procs[p].prog[0].o;
    assert Debt(s)[o] == 1;
    assert Conserved(s.objs[o], s.hist[o], Out(s, o, Debt(s)));
  }

  lemma PassHead(s: State, p: nat, op: Op, rest: seq<Op>)
    requires At(s, p) && s.procs[p].prog == [op] + rest && Guarded(op)
    ensures Typed(s.objs, |s.cells|, op) && ProgOk(s.objs, |s.cells|, rest) && NoReleaseUp(rest)
    ensures Core(SetProg(s, p, rest), None, Repays(op))
  {
    hide Core;
    HeadTyped(s, p);
    assert s.procs[p].prog[1..] == rest;
    assert Debt(s) == Repays(op);
    SetProgOk(s, p, rest, None, Debt(s));
  }

  lemma PassCore(s: State, p: nat, op: Op, rest: seq<Op>)
    requires At(s, p) && s.procs[p].prog == [op] + rest && Guarded(op)
    requires Typed(s.objs, |s.cells|, op) && Guard(s.objs[op.o], op)
    ensures Core(Pass(s, p, op, rest), None, multiset{})
  {
    hide Core, Guard, Note;
    PassHead(s, p, op, rest);
    var s0 := SetProg(s, p, rest);
    assert multiset{} + Repays(op) == Repays(op);
    SetObjOk(s0, op.o, op, multiset{});
    var s1 := SetObj(s0, op.o, op);
    assert multiset{} + Owes(op) == Owes(op);
    if op.Lock? {
      MutexWasFree(s, s1, p, op, rest);
      StillMutex(s1, op);
      StoreOk(s1, op.cell, op.o, None, multiset{});
    } else {
      WakeAllOk(s1, op.o, Owes(op));
      if op.Acquire? {
        StillResource(s1, op);
        StoreOk(WakeAll(s1, op.o), op.cell, op.o, None, multiset{});
      }
    }
  }

  lemma StillMutex(s1: State, op: Op)
    requires op.Lock? && op.o < |s1.objs| && s1.objs[op.o].Mutex?
    ensures CellOk(s1.objs, Some(op.o)) && Owes(op) == multiset{} + multiset{op.o}
  {
    var x: Option<nat> := Some(op.o);
    assert x.value == op.o;
  }

  lemma StillResource(s1: State, op: Op)
    requires op.Acquire? && op.o < |s1.objs| && s1.objs[op.o].Resource?
    ensures CellOk(s1.objs, Some(op.o)) && Owes(op) == multiset{} + multiset{op.o}
  {
    var x: Option<nat> := Some(op.o);
    assert x.value == op.o;
  }

  /** While a mutex is free nobody waits for it. */
  lemma MutexWasFree(s: State, s1: State, p: nat, op: Op, rest: seq<Op>)
    requires At(s, p) && s.procs[p].prog == [op] + rest && op.Lock?
    requires Typed(s.objs, |s.cells|, op) && Guard(s.objs[op.o], op)
    requires s1 == SetObj(SetProg(s, p, rest), op.o, op)
    requires Core(s1, Some(op.o), Owes(op))
    ensures Core(s1, None, Owes(op))
  {
    hide Balanced;
    forall q | 0 <= q < |s1.procs| ensures ProcOk(s1, q, None) {
      assert ProcOk(s, q, None);
      assert ProcOk(s1, q, Some(op.o));
    }
  }

  lemma SameProgs(s: State, p: nat, op: Op, rest: seq<Op>)
    requires WF(s) && p < |s.procs| && Guarded(op) && Typed(s.objs, |s.cells|, op) && Guard(s.objs[op.o], op)
    ensures var r := Pass(s, p, op, rest);
      && |r.procs| == |s.procs| && r.running == s.running && r.procs[p].prog == rest
      && forall q | 0 <= q < |s.procs| && q != p :: r.procs[q].prog == s.procs[q].prog
  {
    hide Guard, Change, Note;
  }

  lemma PassOk(s: State, p: nat, op: Op, rest: seq<Op>)
    requires At(s, p) && s.procs[p].prog == [op] + rest && Guarded(op)
    requires Typed(s.objs, |s.cells|, op) && Guard(s.objs[op.o], op)
    ensures Inv(Pass(s, p, op, rest))
  {
    hide Pass, Guard;
    PassHead(s, p, op, rest);
    PassCore(s, p, op, rest);
    SameProgs(s, p, op, rest);
    Settled(s, p, Pass(s, p, op, rest));
  }

  lemma StuckOk(s: State, p: nat)
    requires At(s, p) && Guarded(s.procs[p].prog[0])
    requires Typed(s.objs, |s.cells|, s.procs[p].prog[0]) && !Guard(s.objs[s.procs[p].prog[0].o], s.procs[p].prog[0])
    ensures Inv(Block(s, p, s.procs[p].prog[0].o, 0))
  {
    hide Core;
    var op := s.procs[p].prog[0];
    if op.ReleaseUp? {
      ReleaseHasRoom(s, p);
      assert false;
    }
    HeadTyped(s, p);
    CoreGives(s, None, Debt(s));
    assert Debt(s) == multiset{};
    BlockOk(s, p, op.o, 0, multiset{});
    assert forall i | 0 <= i < |s.procs[p].prog| :: !s.procs[p].prog[i].ReleaseUp? by {
      assert Placed(s, p);
    }
    CoreGives(Block(s, p, op.o, 0), None, multiset{});
    Settled(s, p, Block(s, p, op.o, 0));
  }

  lemma CoreGives(s: State, stale: Option<nat>, debt: multiset<nat>)
    requires Core(s, stale, debt)
    ensures WF(s)
  {
  }

  lemma Advances(s: State, p: nat)
    requires At(s, p) && !s.procs[p].prog[0].ReleaseUp?
    ensures Core(SetProg(s, p, s.procs[p].prog[1..]), None, multiset{})
  {
    hide Core;
    HeadTyped(s, p);
    SetProgOk(s, p, s.procs[p].prog[1..], None, multiset{});
  }

  lemma ReleaseMutexOk(s: State, p: nat, c: nat, o: nat)
    requires At(s, p) && s.procs[p].prog[0] == Release(c) && c < |s.cells|
    requires s.cells[c] == Some(o) && o < |s.objs| && s.objs[o].Mutex?
    ensures Core(ReleaseHandle(s, p, c, s.procs[p].prog[1..]), None, multiset{})
  {
    hide Balanced, ProcOk;
    Advances(s, p);
    var s0 := SetProg(s, p, s.procs[p].prog[1..]);
    SetCellOk(s0, c, None, None, multiset{}, multiset{o});
    var s1 := SetCell(s0, c, None);
    assert multiset{} + multiset{o} == multiset{o};
    FreeMutexOk(s1, o, multiset{});
    WakeAllOk(s1.(objs := s1.objs[o := Mutex(false)]), o, multiset{});
  }

  lemma FreeMutexOk(s: State, o: nat, debt: multiset<nat>)
    requires Core(s, None, debt + multiset{o}) && o < |s.objs| && s.objs[o].Mutex?
    ensures Core(s.(objs := s.objs[o := Mutex(false)]), Some(o), debt)
  {
    var r := s.(objs := s.objs[o := Mutex(false)]);
    SameKinds(s, r);
    forall q | 0 <= q < |r.objs|
      ensures Conserved(r.objs[q], r.hist[q], Out(r, q, debt)) && EventOk(r, q) && WakesOk(r, q)
    {
      assert Conserved(s.objs[q], s.hist[q], Out(s, q, debt + multiset{o})) && EventOk(s, q) && WakesOk(s, q);
    }
    forall q | 0 <= q < |r.procs| ensures ProcOk(r, q, Some(o)) {
      assert ProcOk(s, q, None);
    }
  }

  lemma ReleaseResourceOk(s: State, p: nat, c: nat, o: nat)
    requires At(s, p) && s.procs[p].prog[0] == Release(c) && c < |s.cells|
    requires s.cells[c] == Some(o) && o < |s.objs| && s.objs[o].Resource?
    ensures Inv(ReleaseHandle(s, p, c, s.procs[p].prog[1..]))
  {
    hide Balanced, ProcOk;
    HeadTyped(s, p);
    var rest := s.procs[p].prog[1..];
    SetCellOk(s, c, None, None, multiset{}, multiset{o});
    var s1 := SetCell(s, c, None);
    var prog := [ReleaseUp(o)] + rest;
    forall i | 0 <= i < |prog| ensures Typed(s1.objs, |s1.cells|, prog[i]) {
      if i > 0 {
        assert prog[i] == rest[i - 1];
      }
    }
    SetProgOk(s1, p, prog, None, multiset{o});
    var r := SetProg(s1, p, prog);
    assert r == ReleaseHandle(s, p, c, rest);
    forall q | 0 <= q < |r.procs| ensures Placed(r, q) {
      assert Placed(s, q);
    }
  }

  lemma ReleaseOk(s: State, p: nat)
    requires At(s, p) && s.procs[p].prog[0].Release?
    ensures s.procs[p].prog[0].cell < |s.cells|
    ensures Inv(ReleaseHandle(s, p, s.procs[p].prog[0].cell, s.procs[p].prog[1..]))
  {
    hide Balanced, ProcOk;
    HeadTyped(s, p);
    var c, rest := s.procs[p].prog[0].cell, s.procs[p].prog[1..];
    var r := ReleaseHandle(s, p, c, rest);
    assert CellOk(s.objs, s.cells[c]);
    if s.cells[c].None? {
      YieldOk(s, p, Failed, multiset{});
      assert Placed(s, p);
      Settled(s, p, r);
    } else if s.objs[s.cells[c].value].Mutex? {
      ReleaseMutexOk(s, p, c, s.cells[c].value);
      Settled(s, p, r);
    } else {
      ReleaseResourceOk(s, p, c, s.cells[c].value);
    }
  }

  lemma MoveOk(s: State, p: nat)
    requires At(s, p) && s.procs[p].prog[0].Move?
    ensures WF(s) && Inv(DoOp(s, p))
  {
    hide Balanced, ProcOk;
    HeadTyped(s, p);
    var c, t, rest := s.procs[p].prog[0].cell, s.procs[p].prog[0].to, s.procs[p].prog[1..];
    Advances(s, p);
    var s0 := SetProg(s, p, rest);
    assert CellOk(s0.objs, s0.cells[c]) && CellOk(s0.objs, s0.cells[t]);
    var x, y := s0.cells[c], s0.cells[t];
    var out := (if x.Some? then multiset{x.value} else multiset{});
    // both cells are emptied, and then each gets the content of the other
    SetCellOk(s0, c, None, None, multiset{}, out);
    var s1 := SetCell(s0, c, None);
    var y' := s1.cells[t];
    var back' := (if y'.Some? then multiset{y'.value} else multiset{});
    SetCellOk(s1, t, None, None, out, out + back');
    var s2 := SetCell(s1, t, None);
    if c == t {
      assert out + back' == out;
      SetCellOk(s2, t, x, None, out, multiset{});
    } else {
      SetCellOk(s2, c, y, None, out + back', out);
      SetCellOk(SetCell(s2, c, y), t, x, None, out, multiset{});
    }
    assert s.cells[c := y][t := x] == if c == t then s2.cells[t := x] else s2.cells[c := y][t := x];
    Settled(s, p, DoOp(s, p));
  }

  lemma OtherOk(s: State, p: nat)
    requires At(s, p)
    requires var op := s.procs[p].prog[0]; op.Delay? || op.Wait? || op.Wake? || op.Drop?
    ensures WF(s) && Inv(DoOp(s, p))
  {
    hide Balanced, ProcOk;
    HeadTyped(s, p);
    var op, rest := s.procs[p].prog[0], s.procs[p].prog[1..];
    Advances(s, p);
    var s0 := SetProg(s, p, rest);
    match op
    case Delay(d) =>
      YieldOk(s0, p, Queued(s.now + d, Timer), multiset{});
      Settled(s, p, DoOp(s, p));
    case Wait(o, latency) =>
      BlockOk(s0, p, o, latency, multiset{});
      Settled(s, p, DoOp(s, p));
    case Wake(o) =>
      Relax(s0, o);
      WakeAllOk(s0, o, multiset{});
      Settled(s, p, DoOp(s, p));
    case Drop(c) =>
      var x := s.cells[c];
      assert CellOk(s.objs, x);
      var out := if x.Some? then multiset{x.value} else multiset{};
      SetCellOk(s0, c, None, None, multiset{}, out);
      DroppedOk(SetCell(s0, c, None), x, None, out, multiset{});
      Settled(s, p, DoOp(s, p));
  }

  lemma Relax(s: State, o: nat)
    requires Core(s, None, multiset{})
    ensures Core(s, Some(o), multiset{})
  {
    hide Balanced;
    forall q | 0 <= q < |s.procs| ensures ProcOk(s, q, Some(o)) {
      assert ProcOk(s, q, None);
    }
  }

  lemma DoOpOk(s: State, p: nat)
    requires At(s, p)
    ensures WF(s) && Inv(DoOp(s, p))
  {
    hide Core, Balanced, ProcOk, Guard, Pass, WakeAll, Block, ReleaseHandle;
    HeadTyped(s, p);
    var op, rest := s.procs[p].prog[0], s.procs[p].prog[1..];
    assert s.procs[p].prog == [op] + rest;
    if Guarded(op) {
      if Guard(s.objs[op.o], op) {
        PassOk(s, p, op, rest);
      } else {
        StuckOk(s, p);
      }
    } else if op.Release? {
      ReleaseOk(s, p);
    } else if op.Move? {
      MoveOk(s, p);
    } else {
      OtherOk(s, p);
    }
  }

  lemma PopOk(s: State, p: nat)
    requires Inv(s) && s.running.None? && IsNext(s, p)
    ensures Inv(Pop(s, p))
  {
    var r := Pop(s, p);
    forall q | 0 <= q < |r.procs| ensures ProgOk(r.objs, |r.cells|, r.procs[q].prog) {
      assert ProgOk(s.objs, |s.cells|, s.procs[q].prog);
    }
    forall q | 0 <= q < |r.procs| ensures Placed(r, q) && ProcOk(r, q, None) {
      assert Placed(s, q) && ProcOk(s, q, None);
    }
    assert Debt(r) == multiset{} by {
      assert Placed(s, p);
    }
    forall o | 0 <= o < |r.objs|
      ensures Conserved(r.objs[o], r.hist[o], Out(r, o, Debt(r))) && EventOk(r, o) && WakesOk(r, o)
    {
      assert Conserved(s.objs[o], s.hist[o], Out(s, o, Debt(s))) && EventOk(s, o) && WakesOk(s, o);
      assert BlockedOn(r.procs, o) == BlockedOn(s.procs, o);
    }
  }

  lemma StepOk(s: State, p: nat, s': State)
    requires Inv(s) && Step(s, p, s')
    ensures Inv(s')
  {
    hide Core, DoOp, Pop;
    if s.running.None? {
      PopOk(s, p);
    } else if s.procs[p].prog == [] {
      YieldOk(s, p, Ended, multiset{});
      CoreGives(s', None, multiset{});
      Settled(s, p, s');
    } else {
      DoOpOk(s, p);
    }
  }
}
