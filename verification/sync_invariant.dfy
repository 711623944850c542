/** What every operation of a process keeps: the accounts of every object and
    event balance, and a process that is registered with an event has a reason to. */
module SyncInvariant {
  import opened Options
  import opened SyncMachine

  // ----- the accounts of one object -----

  ghost function Handles(cells: seq<Option<nat>>, o: nat): nat {
    multiset(cells)[Some(o)]
  }

  /** `debt` lists the units that are taken and not in a cell: on their way into
      one, or on their way back. */
  ghost predicate Conserved(b: Obj, h: History, out: nat) {
    match b
    case Event => true
    case Semaphore(v, m) => v + h.downs == h.initial + h.ups && (v <= m || v <= h.initial)
    case Mutex(owned) => (if owned then 1 else 0) == out
    case Resource(f, c) => f + out == c
    case Queue(items, m) => h.inserted == h.removed + items && (m != 0 ==> |items| <= m)
  }

  ghost function Out(s: State, o: nat, debt: multiset<nat>): nat
    requires o < |s.hist|
  {
    Handles(s.cells, o) + s.hist[o].dropped + debt[o]
  }

  ghost predicate EventOk(s: State, o: nat)
    requires o < |s.hist|
  {
    s.hist[o].registered == s.hist[o].scheduled + |BlockedOn(s.procs, o)|
  }

  // ----- a suspended process -----

  /** The head of `prog` waits for its guard on `b`. */
  ghost predicate Waits(b: Obj, prog: seq<Op>, o: nat) {
    b.Event? || (prog != [] && Guarded(prog[0]) && prog[0].o == o && Fits(b, prog[0]) && !Guard(b, prog[0]))
  }

  /** A queued token is not late, and the wake that queued it is the first one after
      its registration; a registered one has seen no wake, and (unless its object
      has just changed) the guard it waits for is false. */
  ghost predicate ProcOk(s: State, p: nat, stale: Option<nat>)
    requires WF(s) && p < |s.procs|
  {
    match s.procs[p].status
    case Queued(t, Timer) => s.now <= t
    case Queued(t, Woken(o, l, k)) => s.now <= t && o < |s.hist| && k < |s.hist[o].wakes| && t == s.hist[o].wakes[k] + l
    case Running => s.running == Some(p)
    case Blocked(o, l, k) =>
      o < |s.hist| && k == |s.hist[o].wakes| && (stale == Some(o) || Waits(s.objs[o], s.procs[p].prog, o))
    case _ => true
  }

  ghost predicate WakesOk(s: State, o: nat)
    requires o < |s.hist|
  {
    forall k | 0 <= k < |s.hist[o].wakes| :: s.hist[o].wakes[k] <= s.now
  }

  ghost predicate Balanced(s: State, debt: multiset<nat>)
    requires WF(s)
  {
    forall o | 0 <= o < |s.objs| ::
      Conserved(s.objs[o], s.hist[o], Out(s, o, debt)) && EventOk(s, o) && WakesOk(s, o)
  }

  ghost predicate Core(s: State, stale: Option<nat>, debt: multiset<nat>) {
    && WF(s)
    && Balanced(s, debt)
    && (forall p | 0 <= p < |s.procs| :: ProcOk(s, p, stale))
    && (s.running.Some? ==> s.procs[s.running.value].status.Running?)
  }

  /** Only the running process can be half-way through a release. */
  ghost predicate Placed(s: State, p: nat)
    requires p < |s.procs|
  {
    forall i | 0 <= i < |s.procs[p].prog| :: s.procs[p].prog[i].ReleaseUp? ==> s.running == Some(p) && i == 0
  }

  ghost predicate PlacedAll(s: State) {
    forall p | 0 <= p < |s.procs| :: Placed(s, p)
  }

  ghost function Debt(s: State): multiset<nat>
    requires WF(s)
  {
    if s.running.Some? && s.procs[s.running.value].prog != [] && s.procs[s.running.value].prog[0].ReleaseUp?
    then multiset{s.procs[s.running.value].prog[0].o}
    else multiset{}
  }

  ghost predicate Inv(s: State) {
    WF(s) && Core(s, None, Debt(s)) && PlacedAll(s)
  }

  // ----- the pieces of an operation keep it -----

  lemma SetProgOk(s: State, p: nat, prog: seq<Op>, stale: Option<nat>, debt: multiset<nat>)
    requires Core(s, stale, debt) && p < |s.procs| && s.running == Some(p)
    requires ProgOk(s.objs, |s.cells|, prog)
    ensures Core(SetProg(s, p, prog), stale, debt)
  {
    var r := SetProg(s, p, prog);
    forall q | 0 <= q < |r.procs| ensures ProgOk(r.objs, |r.cells|, r.procs[q].prog) {
      assert ProgOk(s.objs, |s.cells|, s.procs[q].prog);
    }
    forall o | 0 <= o < |r.objs|
      ensures Conserved(r.objs[o], r.hist[o], Out(r, o, debt)) && EventOk(r, o) && WakesOk(r, o)
    {
      assert Conserved(s.objs[o], s.hist[o], Out(s, o, debt)) && EventOk(s, o) && WakesOk(s, o);
      assert BlockedOn(r.procs, o) == BlockedOn(s.procs, o);
    }
    forall q | 0 <= q < |r.procs| ensures ProcOk(r, q, stale) {
      assert ProcOk(s, q, stale);
    }
  }

  lemma SetCellOk(s: State, c: nat, x: Option<nat>, stale: Option<nat>, debt: multiset<nat>, debt': multiset<nat>)
    requires Core(s, stale, debt) && c < |s.cells| && CellOk(s.objs, x)
    requires forall o: nat ::
      (if x == Some(o) then 1 else 0) + debt'[o] == (if s.cells[c] == Some(o) then 1 else 0) + debt[o]
    ensures Core(SetCell(s, c, x), stale, debt')
  {
    var r := SetCell(s, c, x);
    assert forall p | 0 <= p < |r.procs| :: r.procs[p] == s.procs[p] && ProgOk(s.objs, |s.cells|, s.procs[p].prog);
    forall d | 0 <= d < |r.cells| ensures CellOk(r.objs, r.cells[d]) {
      assert CellOk(s.objs, s.cells[d]);
    }
    assert WF(r);
    forall o | 0 <= o < |r.objs|
      ensures Conserved(r.objs[o], r.hist[o], Out(r, o, debt')) && EventOk(r, o) && WakesOk(r, o)
    {
      assert Conserved(s.objs[o], s.hist[o], Out(s, o, debt)) && EventOk(s, o) && WakesOk(s, o);
      MovesCell(s.cells, c, x, o);
      assert Out(r, o, debt') == Out(s, o, debt);
    }
    forall q | 0 <= q < |r.procs| ensures ProcOk(r, q, stale) {
      assert ProcOk(s, q, stale);
    }
  }

  lemma MovesCell(cells: seq<Option<nat>>, c: nat, x: Option<nat>, o: nat)
    requires c < |cells|
    ensures Handles(cells[c := x], o) + (if cells[c] == Some(o) then 1 else 0)
         == Handles(cells, o) + (if x == Some(o) then 1 else 0)
  {
    assert cells == cells[..c] + [cells[c]] + cells[c + 1..];
    assert cells[c := x] == cells[..c] + [x] + cells[c + 1..];
  }

  lemma DroppedOk(s: State, x: Option<nat>, stale: Option<nat>, debt: multiset<nat>, debt': multiset<nat>)
    requires Core(s, stale, debt) && CellOk(s.objs, x)
    requires forall o: nat :: (if x == Some(o) then 1 else 0) + debt'[o] == debt[o]
    ensures Core(Dropped(s, x), stale, debt')
  {
    var r := Dropped(s, x);
    forall p | 0 <= p < |r.procs| ensures ProgOk(r.objs, |r.cells|, r.procs[p].prog) {
      assert ProgOk(s.objs, |s.cells|, s.procs[p].prog);
    }
    forall d | 0 <= d < |r.cells| ensures CellOk(r.objs, r.cells[d]) {
      assert CellOk(s.objs, s.cells[d]);
    }
    assert WF(r);
    forall o | 0 <= o < |r.objs|
      ensures Conserved(r.objs[o], r.hist[o], Out(r, o, debt')) && EventOk(r, o) && WakesOk(r, o)
    {
      assert Conserved(s.objs[o], s.hist[o], Out(s, o, debt)) && EventOk(s, o) && WakesOk(s, o);
      assert Out(r, o, debt') == Out(s, o, debt);
    }
    forall q | 0 <= q < |r.procs| ensures ProcOk(r, q, stale) {
      assert ProcOk(s, q, stale);
    }
  }

  lemma StoreOk(s: State, c: nat, o: nat, stale: Option<nat>, debt: multiset<nat>)
    requires Core(s, stale, debt + multiset{o}) && c < |s.cells| && CellOk(s.objs, Some(o))
    ensures CellOk(s.objs, s.cells[c])
    ensures Core(Store(s, c, o), stale, debt)
  {
    var x := s.cells[c];
    assert CellOk(s.objs, x);
    var owed := debt + multiset{o} + if x.Some? then multiset{x.value} else multiset{};
    SetCellOk(s, c, None, stale, debt + multiset{o}, owed);
    DroppedOk(SetCell(s, c, None), x, stale, owed, debt + multiset{o});
    SetCellOk(Dropped(SetCell(s, c, None), x), c, Some(o), stale, debt + multiset{o}, debt);
  }

  // ----- events -----

  lemma WokenNoMore(s: State, o: nat)
    requires o < |s.hist|
    ensures BlockedOn(WakeAll(s, o).procs, o) == {}
    ensures forall q: nat | q != o :: BlockedOn(WakeAll(s, o).procs, q) == BlockedOn(s.procs, q)
  {
  }

  /** A wake leaves nobody registered, and nobody registered whose guard may have changed. */
  lemma WakeAllOk(s: State, o: nat, debt: multiset<nat>)
    requires Core(s, Some(o), debt) && o < |s.hist|
    ensures Core(WakeAll(s, o), None, debt)
  {
    var r := WakeAll(s, o);
    forall p | 0 <= p < |r.procs| ensures ProgOk(r.objs, |r.cells|, r.procs[p].prog) {
      assert ProgOk(s.objs, |s.cells|, s.procs[p].prog);
    }
    assert WF(r);
    WokenNoMore(s, o);
    forall q | 0 <= q < |r.objs|
      ensures Conserved(r.objs[q], r.hist[q], Out(r, q, debt)) && EventOk(r, q) && WakesOk(r, q)
    {
      assert Conserved(s.objs[q], s.hist[q], Out(s, q, debt)) && EventOk(s, q) && WakesOk(s, q);
    }
    forall p | 0 <= p < |r.procs| ensures ProcOk(r, p, None) {
      assert ProcOk(s, p, Some(o));
    }
    if r.running.Some? {
      assert ProcOk(s, r.running.value, Some(o));
    }
  }

  lemma YieldOk(s: State, p: nat, st: Status, debt: multiset<nat>)
    requires Core(s, None, debt) && p < |s.procs| && s.running == Some(p)
    requires st.Ended? || st.Failed? || (st.Queued? && st.origin.Timer? && st.time >= s.now)
    ensures Core(Yield(s, p, st), None, debt)
  {
    var r := Yield(s, p, st);
    forall q | 0 <= q < |r.procs| ensures ProgOk(r.objs, |r.cells|, r.procs[q].prog) {
      assert ProgOk(s.objs, |s.cells|, s.procs[q].prog);
    }
    assert WF(r);
    forall o | 0 <= o < |r.objs|
      ensures Conserved(r.objs[o], r.hist[o], Out(r, o, debt)) && EventOk(r, o) && WakesOk(r, o)
    {
      assert Conserved(s.objs[o], s.hist[o], Out(s, o, debt)) && EventOk(s, o) && WakesOk(s, o);
      assert BlockedOn(r.procs, o) == BlockedOn(s.procs, o);
    }
    forall q | 0 <= q < |r.procs| ensures ProcOk(r, q, None) {
      assert ProcOk(s, q, None);
    }
  }

  lemma BlockOk(s: State, p: nat, o: nat, latency: nat, debt: multiset<nat>)
    requires Core(s, None, debt) && p < |s.procs| && s.running == Some(p) && o < |s.hist|
    requires Waits(s.objs[o], s.procs[p].prog, o)
    ensures Core(Block(s, p, o, latency), None, debt)
  {
    var r := Block(s, p, o, latency);
    forall q | 0 <= q < |r.procs| ensures ProgOk(r.objs, |r.cells|, r.procs[q].prog) {
      assert ProgOk(s.objs, |s.cells|, s.procs[q].prog);
    }
    assert WF(r);
    assert BlockedOn(r.procs, o) == BlockedOn(s.procs, o) + {p};
    assert forall q: nat | q != o :: BlockedOn(r.procs, q) == BlockedOn(s.procs, q);
    forall q | 0 <= q < |r.objs|
      ensures Conserved(r.objs[q], r.hist[q], Out(r, q, debt)) && EventOk(r, q) && WakesOk(r, q)
    {
      assert Conserved(s.objs[q], s.hist[q], Out(s, q, debt)) && EventOk(s, q) && WakesOk(s, q);
    }
    forall q | 0 <= q < |r.procs| ensures ProcOk(r, q, None) {
      assert ProcOk(s, q, None);
    }
  }

  // ----- a guarded operation changes its object -----

  function Owes(op: Op): (d: multiset<nat>)
  {
    if op.Lock? || op.Acquire? then multiset{op.o} else multiset{}
  }

  function Repays(op: Op): multiset<nat> {
    if op.ReleaseUp? then multiset{op.o} else multiset{}
  }

  lemma ChangeConserves(b: Obj, h: History, op: Op, out: nat, out': nat)
    requires Guarded(op) && Fits(b, op) && Guard(b, op) && Conserved(b, h, out)
    requires out' + Repays(op)[op.o] == out + Owes(op)[op.o]
    ensures Conserved(Change(b, op), Note(h, b, op), out')
  {
    if op.Take? {
      assert b.items == [b.items[0]] + b.items[1..];
      assert h.inserted == (h.removed + [b.items[0]]) + b.items[1..];
    }
    if op.Put? {
      assert h.inserted + [op.v] == h.removed + (b.items + [op.v]);
    }
  }

  lemma SetObjWF(s: State, o: nat, op: Op)
    requires WF(s) && o < |s.objs| && Guarded(op) && Fits(s.objs[o], op) && Guard(s.objs[o], op)
    ensures WF(SetObj(s, o, op))
  {
    SameKinds(s, SetObj(s, o, op));
  }

  lemma SetObjBalanced(s: State, o: nat, op: Op, debt: multiset<nat>)
    requires WF(s) && Balanced(s, debt + Repays(op)) && o < |s.objs| && Guarded(op) && op.o == o
    requires Fits(s.objs[o], op) && Guard(s.objs[o], op)
    ensures WF(SetObj(s, o, op)) && Balanced(SetObj(s, o, op), debt + Owes(op))
  {
    hide Guard, Change;
    SetObjWF(s, o, op);
    var r := SetObj(s, o, op);
    forall q | 0 <= q < |r.objs|
      ensures Conserved(r.objs[q], r.hist[q], Out(r, q, debt + Owes(op))) && EventOk(r, q) && WakesOk(r, q)
    {
      assert Conserved(s.objs[q], s.hist[q], Out(s, q, debt + Repays(op))) && EventOk(s, q) && WakesOk(s, q);
      if q == o {
        ChangeConserves(s.objs[o], s.hist[o], op, Out(s, o, debt + Repays(op)), Out(r, o, debt + Owes(op)));
      }
    }
  }

  lemma SetObjOk(s: State, o: nat, op: Op, debt: multiset<nat>)
    requires Core(s, None, debt + Repays(op)) && o < |s.objs| && Guarded(op) && op.o == o
    requires Fits(s.objs[o], op) && Guard(s.objs[o], op)
    ensures Core(SetObj(s, o, op), Some(o), debt + Owes(op))
  {
    hide Change, Balanced;
    SetObjBalanced(s, o, op, debt);
    var r := SetObj(s, o, op);
    forall q | 0 <= q < |r.procs| ensures ProcOk(r, q, Some(o)) {
      assert ProcOk(s, q, None);
    }
  }

  predicate SameKind(a: Obj, b: Obj) {
    (a.Event? <==> b.Event?) && (a.Semaphore? <==> b.Semaphore?) && (a.Mutex? <==> b.Mutex?)
    && (a.Resource? <==> b.Resource?) && (a.Queue? <==> b.Queue?)
  }

  lemma SameKinds(s: State, r: State)
    requires WF(s)
    requires |r.objs| == |s.objs| == |r.hist| && r.cells == s.cells && r.procs == s.procs && r.running == s.running
    requires forall o | 0 <= o < |s.objs| :: SameKind(s.objs[o], r.objs[o])
    ensures WF(r)
  {
    forall p | 0 <= p < |r.procs| ensures ProgOk(r.objs, |r.cells|, r.procs[p].prog) {
      assert ProgOk(s.objs, |s.cells|, s.procs[p].prog);
      forall i | 0 <= i < |r.procs[p].prog| ensures Typed(r.objs, |r.cells|, r.procs[p].prog[i]) {
        assert Typed(s.objs, |s.cells|, s.procs[p].prog[i]);
      }
    }
    forall c | 0 <= c < |r.cells| ensures CellOk(r.objs, r.cells[c]) {
      assert CellOk(s.objs, s.cells[c]);
    }
  }
}
