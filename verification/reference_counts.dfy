/** Intrusive reference counting. Objects and owning pointers ("cells") are named by
    their index; a cell is a local variable or a member of an object. */
module ReferenceCounts {
  import opened Options

  /** `owned` once some cell or the queue has held a reference. */
  datatype Obj = Obj(count: nat, alive: bool, owned: bool)

  datatype Cell = Cell(home: Option<nat>, ref: Option<nat>, live: bool)

  /** `queue` holds the event queue's manual references. */
  datatype State = State(objs: seq<Obj>, cells: seq<Cell>, queue: multiset<nat>)

  predicate CellWF(x: Cell, n: nat) {
    (x.home.Some? ==> x.home.value < n) && (x.ref.Some? ==> x.ref.value < n)
  }

  ghost predicate WF(s: State) {
    && (forall c | 0 <= c < |s.cells| :: CellWF(s.cells[c], |s.objs|))
    && (forall o | o in s.queue :: o < |s.objs|)
  }

  predicate InRange(work: seq<nat>, n: nat) {
    forall i | 0 <= i < |work| :: work[i] < n
  }

  // ----- letting go of references -----

  function Alive(objs: seq<Obj>): nat {
    if objs == [] then 0 else (if objs[0].alive then 1 else 0) + Alive(objs[1..])
  }

  function Killed(x: Cell, o: nat): Cell {
    if x.home == Some(o) then x.(live := false) else x
  }

  /** The members of `o` are destroyed with it. */
  function Kill(cells: seq<Cell>, o: nat): (r: seq<Cell>)
    ensures |r| == |cells| && forall c | 0 <= c < |cells| :: r[c] == Killed(cells[c], o)
  {
    if cells == [] then [] else [Killed(cells[0], o)] + Kill(cells[1..], o)
  }

  /** What the members of `o` refer to, in order. */
  function Members(cells: seq<Cell>, o: nat): seq<nat> {
    if cells == [] then []
    else
      (if cells[0].live && cells[0].home == Some(o) && cells[0].ref.Some? then [cells[0].ref.value] else [])
      + Members(cells[1..], o)
  }

  lemma {:induction false} MembersInRange(cells: seq<Cell>, o: nat, n: nat)
    requires forall c | 0 <= c < |cells| :: CellWF(cells[c], n)
    ensures InRange(Members(cells, o), n)
  {
    if cells != [] {
      MembersInRange(cells[1..], o, n);
    }
  }

  lemma {:induction false} AliveDrops(objs: seq<Obj>, o: nat, x: Obj)
    requires o < |objs|
    ensures Alive(objs[o := x]) + (if objs[o].alive then 1 else 0) == Alive(objs) + (if x.alive then 1 else 0)
  {
    if o > 0 {
      assert objs[o := x][1..] == objs[1..][o - 1 := x];
      AliveDrops(objs[1..], o - 1, x);
    } else {
      assert objs[0 := x][1..] == objs[1..];
    }
  }

  /** One reference fewer; the object is deleted when that was the last. */
  function Dec(s: State, o: nat): State
    requires o < |s.objs| && s.objs[o].count > 0
  {
    var n := s.objs[o].count - 1;
    if n == 0 && s.objs[o].alive
    then s.(objs := s.objs[o := s.objs[o].(count := 0, alive := false)], cells := Kill(s.cells, o))
    else s.(objs := s.objs[o := s.objs[o].(count := n)])
  }

  /** The references that deleting `o` lets go of. */
  function Fallout(s: State, o: nat): seq<nat>
    requires o < |s.objs|
  {
    if s.objs[o].count == 1 && s.objs[o].alive then Members(s.cells, o) else []
  }

  lemma DecWF(s: State, o: nat)
    requires WF(s) && o < |s.objs| && s.objs[o].count > 0
    ensures WF(Dec(s, o)) && InRange(Fallout(s, o), |s.objs|) && |Dec(s, o).objs| == |s.objs|
    ensures Alive(Dec(s, o).objs) + (if s.objs[o].count == 1 && s.objs[o].alive then 1 else 0) == Alive(s.objs)
    ensures !(s.objs[o].count == 1 && s.objs[o].alive) ==> Fallout(s, o) == []
  {
    MembersInRange(s.cells, o, |s.objs|);
    AliveDrops(s.objs, o, Dec(s, o).objs[o]);
    forall c | 0 <= c < |Dec(s, o).cells| ensures CellWF(Dec(s, o).cells[c], |s.objs|) {
      assert CellWF(s.cells[c], |s.objs|);
    }
  }

  /** Drops the references in `work`, and those that this sets free, depth first. It
      ends whatever the ownership, since every deletion leaves one object fewer. */
  ghost function Release(s: State, work: seq<nat>): (r: State)
    requires WF(s) && InRange(work, |s.objs|)
    ensures WF(r) && |r.objs| == |s.objs| && |r.cells| == |s.cells| && r.queue == s.queue
    decreases Alive(s.objs), |work|
  {
    if work == [] then s
    else if s.objs[work[0]].count == 0 then Release(s, work[1..])
    else
      DecWF(s, work[0]);
      Release(Dec(s, work[0]), Fallout(s, work[0]) + work[1..])
  }

  lemma OnlyDecrements(s: State, o: nat)
    requires WF(s) && o < |s.objs| && s.objs[o].count > 1
    ensures InRange([o], |s.objs|) && Release(s, [o]) == Dec(s, o) && Dec(s, o).cells == s.cells
  {
    DecWF(s, o);
    assert Fallout(s, o) + [o][1..] == [];
  }

  /** Dropping references one batch after the other comes to the same. */
  lemma {:induction false} ReleaseInTurn(s: State, a: seq<nat>, b: seq<nat>)
    requires WF(s) && InRange(a, |s.objs|) && InRange(b, |s.objs|)
    ensures InRange(a + b, |s.objs|) && Release(s, a + b) == Release(Release(s, a), b)
    decreases Alive(s.objs), |a|
  {
    hide Dec, Fallout, Alive, WF;
    if a == [] {
      assert a + b == b;
    } else {
      assert (a + b)[1..] == a[1..] + b;
      if s.objs[a[0]].count == 0 {
        ReleaseInTurn(s, a[1..], b);
      } else {
        DecWF(s, a[0]);
        var more := Fallout(s, a[0]);
        ReleaseInTurn(Dec(s, a[0]), more + a[1..], b);
        assert more + a[1..] + b == more + (a[1..] + b);
      }
    }
  }

  // ----- destroying members one by one -----

  /** The members of `o` from index `c` on are destroyed. */
  function KillFrom(s: State, o: nat, c: nat): State
    requires c <= |s.cells|
  {
    s.(cells := s.cells[..c] + Kill(s.cells[c..], o))
  }

  predicate SameMember(x: Cell, y: Cell, o: nat) {
    y.ref == x.ref && y.home == x.home && (x.home == Some(o) ==> y.live == x.live)
  }

  lemma {:induction false} MembersSame(a: seq<Cell>, b: seq<Cell>, o: nat)
    requires |a| == |b| && forall i | 0 <= i < |a| :: SameMember(a[i], b[i], o)
    ensures Members(b, o) == Members(a, o)
  {
    if a != [] {
      assert SameMember(a[0], b[0], o);
      forall i | 0 <= i < |a[1..]| ensures SameMember(a[1..][i], b[1..][i], o) {
        assert SameMember(a[i + 1], b[i + 1], o);
      }
      MembersSame(a[1..], b[1..], o);
    }
  }

  lemma KillFromWF(s: State, o: nat, c: nat)
    requires WF(s) && c <= |s.cells|
    ensures WF(KillFrom(s, o, c)) && KillFrom(s, o, c).objs == s.objs && |KillFrom(s, o, c).cells| == |s.cells|
  {
    var r := KillFrom(s, o, c);
    forall d | 0 <= d < |r.cells| ensures CellWF(r.cells[d], |r.objs|) {
      assert CellWF(s.cells[d], |s.objs|);
    }
  }

  /** Killing the members of two objects, in either order. */
  lemma KillsCommute(cells: seq<Cell>, o: nat, c: nat, x: nat)
    requires c <= |cells|
    ensures Kill(cells[..c] + Kill(cells[c..], o), x) == Kill(cells, x)[..c] + Kill(Kill(cells, x)[c..], o)
  {
    hide Kill;
    var a, b := Kill(cells[..c] + Kill(cells[c..], o), x), Kill(cells, x)[..c] + Kill(Kill(cells, x)[c..], o);
    forall i | 0 <= i < |cells| ensures a[i] == b[i] {
      KilledAt(cells, o, c, i);
      KilledAt(Kill(cells, x), o, c, i);
    }
  }

  lemma KilledAt(cells: seq<Cell>, o: nat, c: nat, i: nat)
    requires c <= |cells| && i < |cells|
    ensures (cells[..c] + Kill(cells[c..], o))[i] == if i < c then cells[i] else Killed(cells[i], o)
  {
    hide Kill;
  }

  lemma MembersOfOther(cells: seq<Cell>, o: nat, c: nat, x: nat)
    requires c <= |cells| && x != o
    ensures Members(cells[..c] + Kill(cells[c..], o), x) == Members(cells, x)
    ensures Members(Kill(cells, x)[c..], o) == Members(cells[c..], o)
  {
    hide Kill;
    var k := cells[..c] + Kill(cells[c..], o);
    forall i | 0 <= i < |cells| ensures SameMember(cells[i], k[i], x) { KilledAt(cells, o, c, i); }
    MembersSame(cells, k, x);
    forall i | 0 <= i < |cells[c..]| ensures SameMember(cells[c..][i], Kill(cells, x)[c..][i], o) {}
    MembersSame(cells[c..], Kill(cells, x)[c..], o);
  }

  /** The members of a dead object do not matter to what happens to another. */
  lemma DecCommutes(s: State, o: nat, c: nat, x: nat)
    requires c <= |s.cells| && o < |s.objs| && x < |s.objs| && x != o && s.objs[x].count > 0
    ensures |Dec(s, x).cells| == |s.cells| && |Dec(s, x).objs| == |s.objs| && Dec(s, x).objs[o] == s.objs[o]
    ensures Dec(KillFrom(s, o, c), x) == KillFrom(Dec(s, x), o, c)
    ensures Fallout(KillFrom(s, o, c), x) == Fallout(s, x)
    ensures Members(Dec(s, x).cells[c..], o) == Members(s.cells[c..], o)
  {
    hide Kill, Members;
    KillsCommute(s.cells, o, c, x);
    MembersOfOther(s.cells, o, c, x);
  }

  lemma ReleaseOnce(s: State, work: seq<nat>)
    requires WF(s) && InRange(work, |s.objs|) && work != []
    ensures s.objs[work[0]].count == 0 ==> Release(s, work) == Release(s, work[1..])
    ensures s.objs[work[0]].count > 0 ==>
      && WF(Dec(s, work[0])) && InRange(Fallout(s, work[0]) + work[1..], |Dec(s, work[0]).objs|)
      && Release(s, work) == Release(Dec(s, work[0]), Fallout(s, work[0]) + work[1..])
  {
    hide Kill, Members, Alive, WF;
    if s.objs[work[0]].count > 0 {
      DecWF(s, work[0]);
    }
  }

  lemma {:induction false} ReleaseCommutes(s: State, work: seq<nat>, o: nat, c: nat)
    requires WF(s) && InRange(work, |s.objs|) && c <= |s.cells| && o < |s.objs| && s.objs[o].count == 0
    ensures WF(KillFrom(s, o, c)) && Release(s, work).objs[o].count == 0
    ensures |KillFrom(s, o, c).objs| == |s.objs|
    ensures Release(KillFrom(s, o, c), work) == KillFrom(Release(s, work), o, c)
    ensures Members(Release(s, work).cells[c..], o) == Members(s.cells[c..], o)
    decreases Alive(s.objs), |work|
  {
    KillFromWF(s, o, c);
    if work == [] {
      assert Release(s, work) == s && Release(KillFrom(s, o, c), work) == KillFrom(s, o, c);
    } else {
      hide Kill, Members, Alive, WF, Release, KillFrom, Dec, Fallout;
      ReleaseOnce(s, work);
      ReleaseOnce(KillFrom(s, o, c), work);
      if s.objs[work[0]].count == 0 {
        ReleaseCommutes(s, work[1..], o, c);
      } else {
        DecWF(s, work[0]);
        DecCommutes(s, o, c, work[0]);
        ReleaseCommutes(Dec(s, work[0]), Fallout(s, work[0]) + work[1..], o, c);
      }
    }
  }

  // ----- counts are owners -----

  function PointsTo(x: Cell, o: nat): nat {
    if x.live && x.ref == Some(o) then 1 else 0
  }

  /** How many living cells hold a reference to `o`. */
  function CellsTo(cells: seq<Cell>, o: nat): nat {
    if cells == [] then 0 else PointsTo(cells[0], o) + CellsTo(cells[1..], o)
  }

  lemma {:induction false} CellSet(cells: seq<Cell>, c: nat, x: Cell, o: nat)
    requires c < |cells|
    ensures CellsTo(cells[c := x], o) + PointsTo(cells[c], o) == CellsTo(cells, o) + PointsTo(x, o)
  {
    if c > 0 {
      assert cells[c := x][1..] == cells[1..][c - 1 := x];
      CellSet(cells[1..], c - 1, x, o);
    } else {
      assert cells[0 := x][1..] == cells[1..];
    }
  }

  lemma {:induction false} CellAdded(cells: seq<Cell>, x: Cell, o: nat)
    ensures CellsTo(cells + [x], o) == CellsTo(cells, o) + PointsTo(x, o)
  {
    if cells != [] {
      assert (cells + [x])[1..] == cells[1..] + [x];
      CellAdded(cells[1..], x, o);
    }
  }

  lemma {:induction false} SomeCell(cells: seq<Cell>, o: nat) returns (c: nat)
    requires CellsTo(cells, o) > 0
    ensures c < |cells| && cells[c].live && cells[c].ref == Some(o)
  {
    if PointsTo(cells[0], o) > 0 {
      c := 0;
    } else {
      c := SomeCell(cells[1..], o);
      c := c + 1;
    }
  }

  lemma {:induction false} CellCounts(cells: seq<Cell>, c: nat, o: nat)
    requires c < |cells| && cells[c].live && cells[c].ref == Some(o)
    ensures CellsTo(cells, o) > 0
  {
    if c > 0 {
      CellCounts(cells[1..], c - 1, o);
    }
  }

  /** What dying members held is exactly what deleting their object lets go of. */
  lemma {:induction false} KillAccount(cells: seq<Cell>, o: nat, x: nat)
    ensures CellsTo(Kill(cells, o), x) + multiset(Members(cells, o))[x] == CellsTo(cells, x)
  {
    if cells != [] {
      KillAccount(cells[1..], o, x);
      var head := if cells[0].live && cells[0].home == Some(o) && cells[0].ref.Some? then [cells[0].ref.value] else [];
      assert multiset(head + Members(cells[1..], o)) == multiset(head) + multiset(Members(cells[1..], o));
    }
  }

  ghost predicate ObjOk(s: State, o: nat, debt: multiset<nat>)
    requires o < |s.objs|
  {
    var x := s.objs[o];
    && x.count == CellsTo(s.cells, o) + s.queue[o] + debt[o]
    && (x.owned ==> (x.alive <==> x.count > 0))
    && (!x.owned ==> x.alive && x.count == 0)
  }

  /** Members live only in living objects. */
  ghost predicate HomesOk(s: State) {
    forall c | 0 <= c < |s.cells| && s.cells[c].live && s.cells[c].home.Some? ::
      s.cells[c].home.value < |s.objs| && s.objs[s.cells[c].home.value].alive
  }

  /** Every object's count is the number of its owners; `debt` lists the references
      that are about to be dropped. */
  ghost predicate Counted(s: State, debt: multiset<nat>) {
    && WF(s) && HomesOk(s)
    && (forall o | 0 <= o < |s.objs| :: ObjOk(s, o, debt))
    && (forall o | o in debt :: o < |s.objs|)
  }

  lemma DecObjOk(s: State, o: nat, debt: multiset<nat>, x: nat)
    requires WF(s) && o < |s.objs| && s.objs[o].count > 0 && x < |s.objs|
    requires ObjOk(s, o, debt + multiset{o}) && ObjOk(s, x, debt + multiset{o})
    ensures ObjOk(Dec(s, o), x, debt + multiset(Fallout(s, o)))
  {
    hide WF;
    if s.objs[o].count == 1 && s.objs[o].alive {
      KillAccount(s.cells, o, x);
    }
  }

  lemma DecCounted(s: State, o: nat, debt: multiset<nat>)
    requires Counted(s, debt + multiset{o}) && o < |s.objs|
    ensures s.objs[o].count > 0 && Counted(Dec(s, o), debt + multiset(Fallout(s, o)))
  {
    assert ObjOk(s, o, debt + multiset{o});
    DecWF(s, o);
    var r, more := Dec(s, o), Fallout(s, o);
    forall x | 0 <= x < |r.objs| ensures ObjOk(r, x, debt + multiset(more)) {
      assert ObjOk(s, x, debt + multiset{o});
      DecObjOk(s, o, debt, x);
    }
    hide Fallout, ObjOk;
    forall x | x in debt + multiset(more) ensures x < |r.objs| {
      if x !in debt {
        assert x in more;
      } else {
        assert x in debt + multiset{o};
      }
    }
  }

  lemma {:induction false} ReleaseCounted(s: State, work: seq<nat>, debt: multiset<nat>)
    requires Counted(s, debt + multiset(work)) && InRange(work, |s.objs|)
    ensures Counted(Release(s, work), debt)
    decreases Alive(s.objs), |work|
  {
    if work == [] {
      assert debt + multiset(work) == debt;
    } else {
      var o, rest := work[0], work[1..];
      assert work == [o] + rest;
      assert debt + multiset(work) == (debt + multiset(rest)) + multiset{o};
      DecCounted(s, o, debt + multiset(rest));
      DecWF(s, o);
      var more := Fallout(s, o);
      assert (debt + multiset(rest)) + multiset(more) == debt + multiset(more + rest);
      ReleaseCounted(Dec(s, o), more + rest, debt);
    }
  }

  /** Dropping references changes neither variables nor what cells refer to: some
      members die, and nothing else. */
  lemma {:induction false} ReleaseKeepsCells(s: State, work: seq<nat>, c: nat)
    requires WF(s) && InRange(work, |s.objs|) && c < |s.cells|
    ensures Release(s, work).cells[c].home == s.cells[c].home && Release(s, work).cells[c].ref == s.cells[c].ref
    ensures s.cells[c].home.None? ==> Release(s, work).cells[c] == s.cells[c]
    ensures !s.cells[c].live ==> !Release(s, work).cells[c].live
    decreases Alive(s.objs), |work|
  {
    if work != [] {
      if s.objs[work[0]].count == 0 {
        ReleaseKeepsCells(s, work[1..], c);
      } else {
        DecWF(s, work[0]);
        ReleaseKeepsCells(Dec(s, work[0]), Fallout(s, work[0]) + work[1..], c);
      }
    }
  }

  // ----- the operations on pointers -----

  predicate Usable(s: State, c: nat) {
    c < |s.cells| && s.cells[c].live
  }

  function Held(x: Cell): seq<nat> {
    if x.ref.Some? then [x.ref.value] else []
  }

  function Inc(s: State, o: nat): State
    requires o < |s.objs|
  {
    s.(objs := s.objs[o := s.objs[o].(count := s.objs[o].count + 1, owned := true)])
  }

  function SetRef(s: State, c: nat, ref: Option<nat>): State
    requires c < |s.cells|
  {
    s.(cells := s.cells[c := s.cells[c].(ref := ref)])
  }

  /** `new T`, with that many null members; nothing owns it yet. */
  function New(s: State, members: nat): State
    decreases members
  {
    if members == 0 then s.(objs := s.objs + [Obj(0, true, false)])
    else
      var r := New(s, members - 1);
      r.(cells := r.cells + [Cell(Some(|s.objs|), None, true)])
  }

  /** `ptr<T> p;` */
  function Variable(s: State): State {
    s.(cells := s.cells + [Cell(None, None, true)])
  }

  /** A null pointer is given a raw one. */
  function Adopt(s: State, c: nat, o: nat): State
    requires c < |s.cells| && o < |s.objs|
  {
    SetRef(Inc(s, o), c, Some(o))
  }

  /** Copy assignment lets go of the old reference before it looks at the source.
      There is no result if the source or the target has been deleted by then. */
  ghost function CopyAssign(s: State, c: nat, d: nat): (r: Option<State>)
    requires WF(s) && c < |s.cells| && d < |s.cells|
  {
    var x, y := s.cells[c].ref, s.cells[d].ref;
    if x == y then Some(s)
    else
      HeldInRange(s, c);
      var s1 := Release(SetRef(s, c, None), Held(s.cells[c]));
      if !s1.cells[c].live || !s1.cells[d].live then None
      else if y.None? then Some(s1)
      else
        assert CellWF(s.cells[d], |s.objs|);
        Some(Adopt(s1, c, y.value))
  }

  lemma HeldInRange(s: State, c: nat)
    requires WF(s) && c < |s.cells|
    ensures InRange(Held(s.cells[c]), |s.objs|)
    ensures WF(SetRef(s, c, None)) && WF(s.(cells := s.cells[c := s.cells[c].(live := false)]))
  {
    assert CellWF(s.cells[c], |s.objs|);
    var r := SetRef(s, c, None);
    var q := s.(cells := s.cells[c := s.cells[c].(live := false)]);
    forall d | 0 <= d < |s.cells| ensures CellWF(r.cells[d], |s.objs|) && CellWF(q.cells[d], |s.objs|) {
      assert CellWF(s.cells[d], |s.objs|);
    }
  }

  /** Move assignment swaps. */
  function Swap(s: State, c: nat, d: nat): State
    requires c < |s.cells| && d < |s.cells|
  {
    SetRef(SetRef(s, c, s.cells[d].ref), d, s.cells[c].ref)
  }

  /** A variable goes out of scope. */
  ghost function Destroy(s: State, c: nat): State
    requires WF(s) && c < |s.cells|
  {
    HeldInRange(s, c);
    Release(s.(cells := s.cells[c := s.cells[c].(live := false)]), Held(s.cells[c]))
  }

  /** `schedule_token`: the queue takes a reference. */
  function Schedule(s: State, o: nat): State
    requires o < |s.objs|
  {
    Inc(s, o).(queue := s.queue + multiset{o})
  }

  /** `step` moves the queue's reference to its own variable. */
  function PopInto(s: State, o: nat): State
    requires o < |s.objs|
  {
    s.(cells := s.cells + [Cell(None, Some(o), true)], queue := s.queue - multiset{o})
  }

  /** `reset` drops the queue's references one by one. */
  ghost function Forget(s: State, o: nat): State
    requires WF(s) && o < |s.objs| && o in s.queue
  {
    Release(s.(queue := s.queue - multiset{o}), [o])
  }

  // ----- every operation keeps the counts -----

  lemma SetRefCounted(s: State, c: nat, ref: Option<nat>, debt: multiset<nat>, debt': multiset<nat>)
    requires Counted(s, debt) && Usable(s, c) && (ref.Some? ==> ref.value < |s.objs|)
    requires forall o: nat ::
      debt'[o] + (if ref == Some(o) then 1 else 0) == debt[o] + (if s.cells[c].ref == Some(o) then 1 else 0)
    ensures Counted(SetRef(s, c, ref), debt')
  {
    var r := SetRef(s, c, ref);
    forall d | 0 <= d < |r.cells| ensures CellWF(r.cells[d], |r.objs|) {
      assert CellWF(s.cells[d], |s.objs|);
    }
    forall o | 0 <= o < |r.objs| ensures ObjOk(r, o, debt') {
      assert ObjOk(s, o, debt);
      CellSet(s.cells, c, r.cells[c], o);
    }
    forall o | o in debt' ensures o < |r.objs| {
      assert debt[o] > 0 || s.cells[c].ref == Some(o);
      assert CellWF(s.cells[c], |s.objs|);
    }
  }

  lemma IncCounted(s: State, o: nat, debt: multiset<nat>)
    requires Counted(s, debt) && o < |s.objs| && s.objs[o].alive
    ensures Counted(Inc(s, o), debt + multiset{o})
  {
    var r := Inc(s, o);
    forall x | 0 <= x < |r.objs| ensures ObjOk(r, x, debt + multiset{o}) {
      assert ObjOk(s, x, debt);
    }
  }

  lemma AdoptCounted(s: State, c: nat, o: nat)
    requires Counted(s, multiset{}) && Usable(s, c) && s.cells[c].ref.None?
    requires o < |s.objs| && s.objs[o].alive
    ensures Counted(Adopt(s, c, o), multiset{})
  {
    IncCounted(s, o, multiset{});
    SetRefCounted(Inc(s, o), c, Some(o), multiset{} + multiset{o}, multiset{});
  }

  lemma {:induction false} NewCounted(s: State, members: nat)
    requires Counted(s, multiset{})
    ensures Counted(New(s, members), multiset{}) && |New(s, members).objs| == |s.objs| + 1
    ensures New(s, members).objs[|s.objs|].alive
  {
    var r := New(s, members);
    if members == 0 {
      Unreferenced(s.cells, |s.objs|, |s.objs|);
      forall c | 0 <= c < |r.cells| ensures CellWF(r.cells[c], |r.objs|) {
        assert CellWF(s.cells[c], |s.objs|);
      }
      forall o | 0 <= o < |r.objs| ensures ObjOk(r, o, multiset{}) {
        assert o < |s.objs| ==> ObjOk(s, o, multiset{});
      }
    } else {
      NewCounted(s, members - 1);
      NullCellCounted(New(s, members - 1), Some(|s.objs|));
    }
  }

  lemma {:induction false} Unreferenced(cells: seq<Cell>, n: nat, o: nat)
    requires o >= n && forall c | 0 <= c < |cells| :: CellWF(cells[c], n)
    ensures CellsTo(cells, o) == 0
  {
    if cells != [] {
      assert CellWF(cells[0], n);
      Unreferenced(cells[1..], n, o);
    }
  }

  lemma NullCellCounted(s: State, home: Option<nat>)
    requires Counted(s, multiset{}) && (home.Some? ==> home.value < |s.objs| && s.objs[home.value].alive)
    ensures Counted(s.(cells := s.cells + [Cell(home, None, true)]), multiset{})
  {
    var r := s.(cells := s.cells + [Cell(home, None, true)]);
    forall c | 0 <= c < |r.cells| ensures CellWF(r.cells[c], |r.objs|) {
      assert c < |s.cells| ==> CellWF(s.cells[c], |s.objs|);
    }
    forall o | 0 <= o < |r.objs| ensures ObjOk(r, o, multiset{}) {
      assert ObjOk(s, o, multiset{});
      CellAdded(s.cells, Cell(home, None, true), o);
    }
  }

  /** A reference held by a living cell is to a living object. */
  lemma NoDangling(s: State, c: nat, debt: multiset<nat>)
    requires Counted(s, debt) && Usable(s, c) && s.cells[c].ref.Some?
    ensures s.cells[c].ref.value < |s.objs| && s.objs[s.cells[c].ref.value].alive
  {
    var o := s.cells[c].ref.value;
    assert CellWF(s.cells[c], |s.objs|);
    assert ObjOk(s, o, debt);
    CellCounts(s.cells, c, o);
  }

  lemma LetGoCounted(s: State, c: nat)
    requires Counted(s, multiset{}) && Usable(s, c)
    ensures InRange(Held(s.cells[c]), |s.objs|) && WF(SetRef(s, c, None))
    ensures Counted(Release(SetRef(s, c, None), Held(s.cells[c])), multiset{})
  {
    HeldInRange(s, c);
    var held := Held(s.cells[c]);
    SetRefCounted(s, c, None, multiset{}, multiset{} + multiset(held));
    ReleaseCounted(SetRef(s, c, None), held, multiset{});
  }

  lemma CopyAssignCounted(s: State, c: nat, d: nat)
    requires Counted(s, multiset{}) && Usable(s, c) && Usable(s, d)
    ensures CopyAssign(s, c, d).Some? ==> Counted(CopyAssign(s, c, d).value, multiset{})
  {
    if s.cells[c].ref != s.cells[d].ref {
      LetGoCounted(s, c);
      var s1 := Release(SetRef(s, c, None), Held(s.cells[c]));
      ReleaseKeepsCells(SetRef(s, c, None), Held(s.cells[c]), c);
      ReleaseKeepsCells(SetRef(s, c, None), Held(s.cells[c]), d);
      if s1.cells[c].live && s1.cells[d].live && s1.cells[d].ref.Some? {
        NoDangling(s1, d, multiset{});
        AdoptCounted(s1, c, s1.cells[d].ref.value);
      }
    }
  }

  lemma SwapCounted(s: State, c: nat, d: nat)
    requires Counted(s, multiset{}) && Usable(s, c) && Usable(s, d)
    ensures Counted(Swap(s, c, d), multiset{})
  {
    assert CellWF(s.cells[c], |s.objs|) && CellWF(s.cells[d], |s.objs|);
    var x, y := s.cells[c].ref, s.cells[d].ref;
    var r := Swap(s, c, d);
    forall e | 0 <= e < |r.cells| ensures CellWF(r.cells[e], |r.objs|) {
      assert CellWF(s.cells[e], |s.objs|);
    }
    forall o | 0 <= o < |r.objs| ensures ObjOk(r, o, multiset{}) {
      assert ObjOk(s, o, multiset{});
      var s1 := SetRef(s, c, y);
      CellSet(s.cells, c, s1.cells[c], o);
      CellSet(s1.cells, d, r.cells[d], o);
    }
  }

  lemma DestroyCounted(s: State, c: nat)
    requires Counted(s, multiset{}) && Usable(s, c) && s.cells[c].home.None?
    ensures Counted(Destroy(s, c), multiset{})
  {
    HeldInRange(s, c);
    var held := Held(s.cells[c]);
    var r := s.(cells := s.cells[c := s.cells[c].(live := false)]);
    forall o | 0 <= o < |r.objs| ensures ObjOk(r, o, multiset{} + multiset(held)) {
      assert ObjOk(s, o, multiset{});
      CellSet(s.cells, c, r.cells[c], o);
    }
    ReleaseCounted(r, held, multiset{});
  }

  lemma ScheduleCounted(s: State, o: nat)
    requires Counted(s, multiset{}) && o < |s.objs| && s.objs[o].alive
    ensures Counted(Schedule(s, o), multiset{})
  {
    IncCounted(s, o, multiset{});
    var r := Schedule(s, o);
    forall x | 0 <= x < |r.objs| ensures ObjOk(r, x, multiset{}) {
      assert ObjOk(Inc(s, o), x, multiset{} + multiset{o});
    }
  }

  lemma PopCounted(s: State, o: nat)
    requires Counted(s, multiset{}) && o in s.queue
    ensures o < |s.objs| && Counted(PopInto(s, o), multiset{})
  {
    var r := PopInto(s, o);
    forall c | 0 <= c < |r.cells| ensures CellWF(r.cells[c], |r.objs|) {
      assert c < |s.cells| ==> CellWF(s.cells[c], |s.objs|);
    }
    forall x | 0 <= x < |r.objs| ensures ObjOk(r, x, multiset{}) {
      assert ObjOk(s, x, multiset{});
      CellAdded(s.cells, Cell(None, Some(o), true), x);
    }
  }

  lemma ForgetCounted(s: State, o: nat)
    requires Counted(s, multiset{}) && o in s.queue
    ensures o < |s.objs| && Counted(Forget(s, o), multiset{})
  {
    var r := s.(queue := s.queue - multiset{o});
    forall x | 0 <= x < |r.objs| ensures ObjOk(r, x, multiset{} + multiset([o])) {
      assert ObjOk(s, x, multiset{});
    }
    ReleaseCounted(r, [o], multiset{});
  }
}
