/** What reference counting guarantees over every sequence of pointer operations, and
    what it needs from its users. */
module ReferenceTheorems {
  import opened Options
  import opened ReferenceCounts

  // ----- runs -----

  datatype Action =
    | Allocates(members: nat)
    | Declares
    | Adopts(c: nat, o: nat)
    | Copies(c: nat, d: nat)
    | Swaps(c: nat, d: nat)
    | Destroys(c: nat)
    | Schedules(o: nat)
    | Pops(o: nat)
    | Forgets(o: nat)

  /** Raw pointers are used only to living objects, and pointers only while they live. */
  ghost predicate Enabled(s: State, a: Action) {
    && WF(s)
    && match a
       case Allocates(_) => true
       case Declares => true
       case Adopts(c, o) => Usable(s, c) && s.cells[c].ref.None? && o < |s.objs| && s.objs[o].alive
       case Copies(c, d) => Usable(s, c) && Usable(s, d) && CopyAssign(s, c, d).Some?
       case Swaps(c, d) => Usable(s, c) && Usable(s, d)
       case Destroys(c) => Usable(s, c) && s.cells[c].home.None?
       case Schedules(o) => o < |s.objs| && s.objs[o].alive
       case Pops(o) => o in s.queue && o < |s.objs|
       case Forgets(o) => o in s.queue && o < |s.objs|
  }

  ghost function Do(s: State, a: Action): State
    requires Enabled(s, a)
  {
    match a
    case Allocates(members) => New(s, members)
    case Declares => Variable(s)
    case Adopts(c, o) => Adopt(s, c, o)
    case Copies(c, d) => CopyAssign(s, c, d).value
    case Swaps(c, d) => Swap(s, c, d)
    case Destroys(c) => Destroy(s, c)
    case Schedules(o) => Schedule(s, o)
    case Pops(o) => PopInto(s, o)
    case Forgets(o) => Forget(s, o)
  }

  ghost predicate Runs(s: State, acts: seq<Action>, s': State)
    decreases |acts|
  {
    if acts == [] then s' == s else Enabled(s, acts[0]) && Runs(Do(s, acts[0]), acts[1..], s')
  }

  const Empty := State([], [], multiset{})

  ghost predicate Reachable(s: State) {
    exists acts :: Runs(Empty, acts, s)
  }

  lemma DoCounted(s: State, a: Action)
    requires Counted(s, multiset{}) && Enabled(s, a)
    ensures Counted(Do(s, a), multiset{})
  {
    hide Counted, CopyAssign, Destroy, Forget, Release;
    match a
    case Allocates(members) => NewCounted(s, members);
    case Declares => NullCellCounted(s, None);
    case Adopts(c, o) => AdoptCounted(s, c, o);
    case Copies(c, d) => CopyAssignCounted(s, c, d);
    case Swaps(c, d) => SwapCounted(s, c, d);
    case Destroys(c) => DestroyCounted(s, c);
    case Schedules(o) => ScheduleCounted(s, o);
    case Pops(o) => PopCounted(s, o);
    case Forgets(o) => ForgetCounted(s, o);
  }

  lemma {:induction false} RunsCounted(s: State, acts: seq<Action>, s': State)
    requires Counted(s, multiset{}) && Runs(s, acts, s')
    ensures Counted(s', multiset{})
    decreases |acts|
  {
    hide Counted;
    if acts != [] {
      DoCounted(s, acts[0]);
      RunsCounted(Do(s, acts[0]), acts[1..], s');
    }
  }

  lemma ReachableCounted(s: State)
    requires Reachable(s)
    ensures Counted(s, multiset{})
  {
    var acts :| Runs(Empty, acts, s);
    RunsCounted(Empty, acts, s);
  }

  // ----- counts, owners, lifetimes -----

  /** An object's count is the number of living pointers to it plus its entries in the
      event queue. */
  lemma CountIsOwners(s: State, o: nat)
    requires Reachable(s) && o < |s.objs|
    ensures s.objs[o].count == CellsTo(s.cells, o) + s.queue[o]
  {
    ReachableCounted(s);
    assert ObjOk(s, o, multiset{});
  }

  /** Once an object has been owned, it lives exactly as long as somebody owns it. */
  lemma LivesWhileOwned(s: State, o: nat)
    requires Reachable(s) && o < |s.objs| && s.objs[o].owned
    ensures s.objs[o].alive <==>
      o in s.queue || exists c :: 0 <= c < |s.cells| && s.cells[c].live && s.cells[c].ref == Some(o)
  {
    ReachableCounted(s);
    assert ObjOk(s, o, multiset{});
    if s.objs[o].alive && o !in s.queue {
      var c := SomeCell(s.cells, o);
    }
    if c :| 0 <= c < |s.cells| && s.cells[c].live && s.cells[c].ref == Some(o) {
      CellCounts(s.cells, c, o);
    }
  }

  /** No pointer that lives, and no queue entry, refers to a deleted object; and the
      members of an object live no longer than it does. */
  lemma NothingDangles(s: State, c: nat, o: nat)
    requires Reachable(s)
    ensures Usable(s, c) && s.cells[c].ref.Some? ==>
      s.cells[c].ref.value < |s.objs| && s.objs[s.cells[c].ref.value].alive
    ensures o in s.queue ==> o < |s.objs| && s.objs[o].alive
    ensures Usable(s, c) && s.cells[c].home.Some? ==>
      s.cells[c].home.value < |s.objs| && s.objs[s.cells[c].home.value].alive
  {
    ReachableCounted(s);
    if Usable(s, c) && s.cells[c].ref.Some? {
      NoDangling(s, c, multiset{});
    }
    if o in s.queue {
      assert ObjOk(s, o, multiset{});
    }
  }

  // ----- no leak without cycles -----

  /** Objects own only objects of lower rank. */
  ghost predicate Acyclic(s: State, rank: seq<nat>)
    requires WF(s)
  {
    && |rank| == |s.objs|
    && forall c | 0 <= c < |s.cells| && s.cells[c].live && s.cells[c].home.Some? && s.cells[c].ref.Some? ::
         Falls(s.cells[c], rank)
  }

  predicate Falls(x: Cell, rank: seq<nat>)
    requires x.home.Some? && x.ref.Some?
  {
    x.home.value < |rank| && x.ref.value < |rank| && rank[x.ref.value] < rank[x.home.value]
  }

  /** Held by a variable or by the event queue, or known by a raw pointer only. */
  ghost predicate Root(s: State, o: nat) {
    || o in s.queue
    || (exists c :: 0 <= c < |s.cells| && s.cells[c].live && s.cells[c].home.None? && s.cells[c].ref == Some(o))
    || (o < |s.objs| && s.objs[o].alive && !s.objs[o].owned)
  }

  /** A member of `h` holds `o`. */
  ghost predicate Owns(s: State, h: nat, o: nat) {
    exists c :: 0 <= c < |s.cells| && s.cells[c].live && s.cells[c].home == Some(h) && s.cells[c].ref == Some(o)
  }

  /** From a root to `o`, each owning the next. */
  ghost predicate Chain(s: State, path: seq<nat>, o: nat) {
    && |path| > 0 && Root(s, path[0]) && path[|path| - 1] == o
    && forall i | 0 < i < |path| :: Owns(s, path[i - 1], path[i])
  }

  lemma {:induction false} ChainToRoot(s: State, rank: seq<nat>, bound: nat, o: nat) returns (path: seq<nat>)
    requires Counted(s, multiset{}) && Acyclic(s, rank) && forall i | 0 <= i < |rank| :: rank[i] <= bound
    requires o < |s.objs| && s.objs[o].alive
    ensures Chain(s, path, o)
    decreases bound - rank[o]
  {
    assert ObjOk(s, o, multiset{});
    if o in s.queue || !s.objs[o].owned {
      path := [o];
    } else {
      var c := SomeCell(s.cells, o);
      if s.cells[c].home.None? {
        path := [o];
      } else {
        var h := s.cells[c].home.value;
        assert Falls(s.cells[c], rank);
        assert Owns(s, h, o);
        var up := ChainToRoot(s, rank, bound, h);
        path := up + [o];
      }
    }
  }

  function Highest(rank: seq<nat>): (m: nat)
    ensures forall i | 0 <= i < |rank| :: rank[i] <= m
  {
    if rank == [] then 0 else
      var m := Highest(rank[..|rank| - 1]);
      if rank[|rank| - 1] > m then rank[|rank| - 1] else m
  }

  /** Without ownership cycles nothing leaks: every living object is owned, directly or
      through others, by a variable, the event queue or a raw pointer. */
  lemma NoLeakWithoutCycles(s: State, rank: seq<nat>, o: nat) returns (path: seq<nat>)
    requires Reachable(s) && WF(s) && Acyclic(s, rank) && o < |s.objs| && s.objs[o].alive
    ensures Chain(s, path, o)
  {
    ReachableCounted(s);
    path := ChainToRoot(s, rank, Highest(rank), o);
  }

  /** When the last variable is gone and the queue is empty, every object that was ever
      owned has been deleted. */
  lemma AllDeletedInTheEnd(s: State, rank: seq<nat>, o: nat)
    requires Reachable(s) && WF(s) && Acyclic(s, rank) && o < |s.objs|
    requires forall r: nat :: !Root(s, r)
    ensures !s.objs[o].alive
  {
    if s.objs[o].alive {
      var path := NoLeakWithoutCycles(s, rank, o);
    }
  }

  // ----- copy assignment -----

  /** The objects in `k` keep each other: each lives, and is a root or owned by one of them. */
  ghost predicate SelfSupporting(s: State, k: set<nat>) {
    forall o | o in k :: o < |s.objs| && s.objs[o].alive && Supported(s, k, o)
  }

  ghost predicate Supported(s: State, k: set<nat>, o: nat) {
    Root(s, o) || exists h :: h in k && Owns(s, h, o)
  }

  /** An object whose reference is dropped is not the last of a group that keeps itself. */
  lemma SupportCounts(s: State, o: nat, debt: multiset<nat>, k: set<nat>)
    requires Counted(s, debt + multiset{o}) && SelfSupporting(s, k) && o in k
    ensures s.objs[o].count > 1
  {
    assert ObjOk(s, o, debt + multiset{o}) && Supported(s, k, o);
    if o !in s.queue {
      var c :| 0 <= c < |s.cells| && s.cells[c].live && s.cells[c].ref == Some(o);
      CellCounts(s.cells, c, o);
    }
  }

  lemma DecKeepsSupport(s: State, o: nat, debt: multiset<nat>, k: set<nat>)
    requires Counted(s, debt + multiset{o}) && o < |s.objs| && s.objs[o].count > 0 && SelfSupporting(s, k)
    ensures SelfSupporting(Dec(s, o), k)
  {
    var r := Dec(s, o);
    if o in k { SupportCounts(s, o, debt, k); }
    assert ObjOk(s, o, debt + multiset{o});
    forall x | x in k ensures x < |r.objs| && r.objs[x].alive && Supported(r, k, x) {
      assert Supported(s, k, x);
      if h :| h in k && Owns(s, h, x) {
        var c :| 0 <= c < |s.cells| && s.cells[c].live && s.cells[c].home == Some(h) && s.cells[c].ref == Some(x);
        assert r.cells[c] == s.cells[c];
        assert Owns(r, h, x);
      } else if c :| 0 <= c < |s.cells| && s.cells[c].live && s.cells[c].home.None? && s.cells[c].ref == Some(x) {
        assert r.cells[c] == s.cells[c];
        assert Root(r, x);
      } else {
        assert Root(r, x);
      }
    }
  }

  lemma {:induction false} SupportedSurvive(s: State, work: seq<nat>, debt: multiset<nat>, k: set<nat>)
    requires Counted(s, debt + multiset(work)) && InRange(work, |s.objs|) && SelfSupporting(s, k)
    ensures SelfSupporting(Release(s, work), k)
    decreases Alive(s.objs), |work|
  {
    hide SelfSupporting;
    if work != [] {
      var o, rest := work[0], work[1..];
      assert work == [o] + rest;
      assert debt + multiset(work) == (debt + multiset(rest)) + multiset{o};
      DecCounted(s, o, debt + multiset(rest));
      DecKeepsSupport(s, o, debt + multiset(rest), k);
      DecWF(s, o);
      var more := Fallout(s, o);
      assert (debt + multiset(rest)) + multiset(more) == debt + multiset(more + rest);
      SupportedSurvive(Dec(s, o), more + rest, debt, k);
    }
  }

  /** The dead stay dead, and a cell dies with its home only. */
  lemma {:induction false} ReleaseKeeps(s: State, work: seq<nat>, o: nat, c: nat)
    requires WF(s) && InRange(work, |s.objs|) && o < |s.objs|
    ensures var r := Release(s, work);
      && (r.objs[o].alive ==> s.objs[o].alive) && r.objs[o].owned == s.objs[o].owned
      && (c < |s.cells| && r.objs[o].alive && s.cells[c].home == Some(o) ==> r.cells[c].live == s.cells[c].live)
    decreases Alive(s.objs), |work|
  {
    if work != [] {
      if s.objs[work[0]].count == 0 {
        ReleaseKeeps(s, work[1..], o, c);
      } else {
        DecWF(s, work[0]);
        ReleaseKeeps(Dec(s, work[0]), Fallout(s, work[0]) + work[1..], o, c);
      }
    }
  }

  /** What is left after dropping references keeps itself, and did so before. */
  lemma SurvivorsSupported(s: State, work: seq<nat>) returns (k: set<nat>)
    requires Counted(s, multiset(work)) && InRange(work, |s.objs|)
    ensures SelfSupporting(s, k)
    ensures forall o | 0 <= o < |s.objs| :: o in k <==> Release(s, work).objs[o].alive
  {
    var r := Release(s, work);
    assert multiset{} + multiset(work) == multiset(work);
    ReleaseCounted(s, work, multiset{});
    k := set o: nat | o < |r.objs| && r.objs[o].alive;
    forall o | o in k ensures o < |s.objs| && s.objs[o].alive && Supported(s, k, o) {
      ReleaseKeeps(s, work, o, 0);
      assert ObjOk(r, o, multiset{});
      if r.objs[o].owned && o !in r.queue {
        var c := SomeCell(r.cells, o);
        ReleaseKeepsCells(s, work, c);
        if r.cells[c].home.Some? {
          assert Owns(s, r.cells[c].home.value, o);
        }
      }
    }
  }

  /** An object survives if and only if it is one of a group that keeps itself. */
  lemma ObjectSurvivesIff(s: State, work: seq<nat>, o: nat)
    requires Counted(s, multiset(work)) && InRange(work, |s.objs|) && o < |s.objs|
    ensures Release(s, work).objs[o].alive <==> exists k :: SelfSupporting(s, k) && o in k
  {
    assert multiset{} + multiset(work) == multiset(work);
    var k := SurvivorsSupported(s, work);
    forall k' | SelfSupporting(s, k') && o in k' ensures Release(s, work).objs[o].alive {
      SupportedSurvive(s, work, multiset{}, k');
    }
  }

  ghost predicate HomeIn(x: Cell, k: set<nat>) {
    x.home.None? || x.home.value in k
  }

  /** A cell survives if and only if it is a variable or its object survives. */
  lemma CellSurvivesIff(s: State, work: seq<nat>, c: nat)
    requires Counted(s, multiset(work)) && InRange(work, |s.objs|) && Usable(s, c)
    ensures Release(s, work).cells[c].live <==>
      exists k :: SelfSupporting(s, k) && HomeIn(s.cells[c], k)
  {
    var r := Release(s, work);
    assert multiset{} + multiset(work) == multiset(work);
    ReleaseCounted(s, work, multiset{});
    ReleaseKeepsCells(s, work, c);
    var k := SurvivorsSupported(s, work);
    assert r.cells[c].live ==> HomeIn(s.cells[c], k);
    forall k' | SelfSupporting(s, k') && HomeIn(s.cells[c], k') ensures r.cells[c].live {
      SupportedSurvive(s, work, multiset{}, k');
      if s.cells[c].home.Some? {
        ReleaseKeeps(s, work, s.cells[c].home.value, c);
      }
    }
  }

  /** Copy assignment works if and only if the pointers are equal already, or source and
      target are variables or members of objects that keep themselves without the old
      reference of the target. */
  lemma CopyDefinedIff(s: State, c: nat, d: nat)
    requires Reachable(s) && WF(s) && Usable(s, c) && Usable(s, d)
    ensures CopyAssign(s, c, d).Some? <==>
      || s.cells[c].ref == s.cells[d].ref
      || ((exists k :: SelfSupporting(SetRef(s, c, None), k) && HomeIn(s.cells[c], k))
          && (exists k :: SelfSupporting(SetRef(s, c, None), k) && HomeIn(s.cells[d], k)))
  {
    hide SelfSupporting, Release;
    ReachableCounted(s);
    HeldInRange(s, c);
    var s0, held := SetRef(s, c, None), Held(s.cells[c]);
    SetRefCounted(s, c, None, multiset{}, multiset(held));
    CellSurvivesIff(s0, held, c);
    CellSurvivesIff(s0, held, d);
  }

  // ----- and in terms of chains -----

  /** A variable, or a member of an object that a chain of owners leads to from a root. */
  ghost predicate Anchored(s: State, x: Cell) {
    x.home.None? || exists path :: Chain(s, path, x.home.value)
  }

  lemma {:induction false} ClimbToRoot(s: State, rank: seq<nat>, bound: nat, k: set<nat>, o: nat)
    returns (path: seq<nat>)
    requires WF(s) && Acyclic(s, rank) && (forall i | 0 <= i < |rank| :: rank[i] <= bound)
    requires SelfSupporting(s, k) && o in k
    ensures Chain(s, path, o)
    decreases bound - rank[o]
  {
    assert Supported(s, k, o);
    if Root(s, o) {
      path := [o];
    } else {
      var h :| h in k && Owns(s, h, o);
      var c :| 0 <= c < |s.cells| && s.cells[c].live && s.cells[c].home == Some(h) && s.cells[c].ref == Some(o);
      assert Falls(s.cells[c], rank);
      var up := ClimbToRoot(s, rank, bound, k, h);
      path := up + [o];
    }
  }

  lemma ChainSupports(s: State, path: seq<nat>, o: nat, debt: multiset<nat>) returns (k: set<nat>)
    requires Counted(s, debt) && Chain(s, path, o)
    ensures SelfSupporting(s, k) && o in k
  {
    k := set i | 0 <= i < |path| :: path[i];
    forall x | x in k ensures x < |s.objs| && s.objs[x].alive && Supported(s, k, x) {
      var i :| 0 <= i < |path| && path[i] == x;
      if i > 0 {
        assert path[i - 1] in k && Owns(s, path[i - 1], path[i]);
      }
      if c :| 0 <= c < |s.cells| && s.cells[c].live && s.cells[c].ref == Some(x) {
        NoDangling(s, c, debt);
      } else if x in s.queue {
        assert ObjOk(s, x, debt);
      }
    }
  }

  lemma AnchoredIff(s: State, rank: seq<nat>, debt: multiset<nat>, x: Cell)
    requires Counted(s, debt) && Acyclic(s, rank)
    ensures Anchored(s, x) <==> exists k :: SelfSupporting(s, k) && HomeIn(x, k)
  {
    assert SelfSupporting(s, {});
    if k :| SelfSupporting(s, k) && HomeIn(x, k) {
      if x.home.Some? {
        var path := ClimbToRoot(s, rank, Highest(rank), k, x.home.value);
      }
    }
    if x.home.Some? && Anchored(s, x) {
      var path :| Chain(s, path, x.home.value);
      var k := ChainSupports(s, path, x.home.value, debt);
    }
  }

  /** Without ownership cycles: copy assignment works if and only if the pointers are
      equal already, or source and target are reached from a root without the old
      reference of the target. */
  lemma CopyDefinedIffAnchored(s: State, rank: seq<nat>, c: nat, d: nat)
    requires Reachable(s) && WF(s) && Acyclic(s, rank) && Usable(s, c) && Usable(s, d)
    ensures CopyAssign(s, c, d).Some? <==>
      || s.cells[c].ref == s.cells[d].ref
      || (Anchored(SetRef(s, c, None), s.cells[c]) && Anchored(SetRef(s, c, None), s.cells[d]))
  {
    hide SelfSupporting, Anchored, CopyAssign;
    CopyDefinedIff(s, c, d);
    ReachableCounted(s);
    HeldInRange(s, c);
    var s0, held := SetRef(s, c, None), Held(s.cells[c]);
    SetRefCounted(s, c, None, multiset{}, multiset(held));
    StillAcyclic(s, rank, c);
    AnchoredIff(s0, rank, multiset(held), s.cells[c]);
    AnchoredIff(s0, rank, multiset(held), s.cells[d]);
  }

  lemma StillAcyclic(s: State, rank: seq<nat>, c: nat)
    requires WF(s) && Acyclic(s, rank) && c < |s.cells| && WF(SetRef(s, c, None))
    ensures Acyclic(SetRef(s, c, None), rank)
  {
    var r := SetRef(s, c, None);
    forall d | 0 <= d < |r.cells| && r.cells[d].live && r.cells[d].home.Some? && r.cells[d].ref.Some?
      ensures Falls(r.cells[d], rank)
    {
      assert Falls(s.cells[d], rank);
    }
  }

  /** Copying between variables always works, and so does copying when the old object
      has another owner. */
  lemma CopyIsSafe(s: State, c: nat, d: nat)
    requires Reachable(s) && WF(s) && Usable(s, c) && Usable(s, d)
    requires (s.cells[c].home.None? && s.cells[d].home.None?)
          || (s.cells[c].ref.Some? ==> s.cells[c].ref.value < |s.objs| && s.objs[s.cells[c].ref.value].count > 1)
    ensures CopyAssign(s, c, d).Some?
    ensures var r := CopyAssign(s, c, d).value; |r.cells| == |s.cells| && r.cells[c].ref == s.cells[d].ref
  {
    HeldInRange(s, c);
    var s0, held := SetRef(s, c, None), Held(s.cells[c]);
    ReleaseKeepsCells(s0, held, c);
    ReleaseKeepsCells(s0, held, d);
    if s.cells[c].ref.Some? && s.objs[s.cells[c].ref.value].count > 1 {
      OnlyDecrements(s0, s.cells[c].ref.value);
    }
  }

  /** Copying from a member of the very object that the target holds works if and only
      if that object has another owner: otherwise it is deleted, with the source, before
      the source is read. */
  lemma CopyFromOwnMemberIff(s: State, c: nat, d: nat)
    requires Reachable(s) && WF(s) && Usable(s, c) && Usable(s, d)
    requires s.cells[c].ref.Some? && s.cells[d].home == s.cells[c].ref && s.cells[d].ref != s.cells[c].ref
    ensures s.cells[c].ref.value < |s.objs|
    ensures CopyAssign(s, c, d).Some? <==> s.objs[s.cells[c].ref.value].count > 1
  {
    ReachableCounted(s);
    NoDangling(s, c, multiset{});
    var o := s.cells[c].ref.value;
    assert ObjOk(s, o, multiset{});
    CellCounts(s.cells, c, o);
    HeldInRange(s, c);
    var s0 := SetRef(s, c, None);
    ReleaseKeepsCells(s0, [o], c);
    if s.objs[o].count > 1 {
      OnlyDecrements(s0, o);
    } else {
      DecWF(s0, o);
      var s1 := Dec(s0, o);
      assert !s1.cells[d].live;
      ReleaseKeepsCells(s1, Fallout(s0, o) + [o][1..], d);
    }
  }

  const First := State([Obj(0, true, false)], [Cell(Some(0), None, true), Cell(None, None, true)], multiset{})

  /** A variable (1) holds a node (0) whose member (0) holds another node (1). */
  const List := State([Obj(1, true, true), Obj(1, true, true)],
                      [Cell(Some(0), Some(1), true), Cell(None, Some(0), true)], multiset{})

  lemma Prepend(s: State, a: Action, acts: seq<Action>, s': State)
    requires Enabled(s, a) && Runs(Do(s, a), acts, s')
    ensures Runs(s, [a] + acts, s')
  {
    assert ([a] + acts)[1..] == acts;
  }

  lemma IsFirst()
    ensures WF(Empty) && Variable(New(Empty, 1)) == First && WF(New(Empty, 1)) && WF(First)
  {
    assert New(Empty, 0).objs == [Obj(0, true, false)];
    assert New(Empty, 1).cells == [Cell(Some(0), None, true)];
  }

  lemma IsList()
    ensures WF(First) && WF(Adopt(First, 1, 0)) && WF(New(Adopt(First, 1, 0), 0)) && WF(List)
    ensures Adopt(New(Adopt(First, 1, 0), 0), 0, 1) == List
  {
    var s1 := Adopt(First, 1, 0);
    assert s1 == State([Obj(1, true, true)], [Cell(Some(0), None, true), Cell(None, Some(0), true)], multiset{});
    var s2 := New(s1, 0);
    assert s2 == State([Obj(1, true, true), Obj(0, true, false)], s1.cells, multiset{});
  }

  /** `p = p->next` on a list whose first node has no other owner: after these steps the
      assignment reads a pointer that has been deleted. */
  lemma CopyNextFails() returns (acts: seq<Action>)
    ensures Runs(Empty, acts, List) && WF(List) && CopyAssign(List, 1, 0).None?
  {
    IsFirst();
    IsList();
    var s3, s4 := Adopt(First, 1, 0), New(Adopt(First, 1, 0), 0);
    Prepend(s4, Adopts(0, 1), [], List);
    Prepend(s3, Allocates(0), [Adopts(0, 1)] + [], List);
    Prepend(First, Adopts(1, 0), [Allocates(0)] + ([Adopts(0, 1)] + []), List);
    acts := [Adopts(1, 0)] + ([Allocates(0)] + ([Adopts(0, 1)] + []));
    Prepend(New(Empty, 1), Declares, acts, List);
    Prepend(Empty, Allocates(1), [Declares] + acts, List);
    acts := [Allocates(1)] + ([Declares] + acts);
    CopyFromOwnMemberIff(List, 1, 0);
  }
}
