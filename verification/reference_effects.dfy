/** What the operations on pointers come to: pointers hold what they would hold if nothing
    were ever counted or deleted, and what is deleted is exactly what nobody keeps. */
module ReferenceEffects {
  import opened Options
  import opened ReferenceCounts
  import opened ReferenceTheorems

  // ----- pointers without counts -----

  /** Pointers, and the queue, in a world where objects live for ever. */
  datatype Plain = Plain(objs: nat, cells: seq<Cell>, queue: multiset<nat>)

  function SetPlain(m: Plain, c: nat, ref: Option<nat>): Plain {
    if c < |m.cells| then m.(cells := m.cells[c := m.cells[c].(ref := ref)]) else m
  }

  function RefOf(m: Plain, c: nat): Option<nat> {
    if c < |m.cells| then m.cells[c].ref else None
  }

  function PlainDo(m: Plain, a: Action): Plain {
    match a
    case Allocates(members) =>
      var cells := seq(members, i requires 0 <= i < members => Cell(Some(m.objs), None, true));
      m.(objs := m.objs + 1, cells := m.cells + cells)
    case Declares => m.(cells := m.cells + [Cell(None, None, true)])
    case Adopts(c, o) => SetPlain(m, c, Some(o))
    case Copies(c, d) => SetPlain(m, c, RefOf(m, d))
    case Swaps(c, d) => SetPlain(SetPlain(m, c, RefOf(m, d)), d, RefOf(m, c))
    case Destroys(c) => if c < |m.cells| then m.(cells := m.cells[c := m.cells[c].(live := false)]) else m
    case Schedules(o) => m.(queue := m.queue + multiset{o})
    case Pops(o) => m.(cells := m.cells + [Cell(None, Some(o), true)], queue := m.queue - multiset{o})
    case Forgets(o) => m.(queue := m.queue - multiset{o})
  }

  function Plays(m: Plain, acts: seq<Action>): Plain
    decreases |acts|
  {
    if acts == [] then m else Plays(PlainDo(m, acts[0]), acts[1..])
  }

  /** Every pointer refers to the same object. A variable lives until it is destroyed, and a
      member exactly as long as its object. */
  ghost predicate SameCell(s: State, m: Plain, c: nat)
    requires c < |s.cells| == |m.cells|
  {
    var x := s.cells[c];
    && x.home == m.cells[c].home && x.ref == m.cells[c].ref
    && match x.home
       case None => x.live == m.cells[c].live
       case Some(h) => h < |s.objs| && x.live == s.objs[h].alive
  }

  ghost predicate Matches(s: State, m: Plain) {
    && |s.objs| == m.objs && |s.cells| == |m.cells| && s.queue == m.queue
    && forall c | 0 <= c < |s.cells| :: SameCell(s, m, c)
  }

  /** Dropping references changes no pointer. */
  lemma ReleaseMatches(s: State, work: seq<nat>, m: Plain)
    requires Counted(s, multiset(work)) && InRange(work, |s.objs|) && Matches(s, m)
    ensures Matches(Release(s, work), m)
  {
    var r := Release(s, work);
    assert multiset{} + multiset(work) == multiset(work);
    ReleaseCounted(s, work, multiset{});
    forall c | 0 <= c < |r.cells| ensures SameCell(r, m, c) {
      assert SameCell(s, m, c);
      ReleaseKeepsCells(s, work, c);
      if s.cells[c].home.Some? {
        ReleaseKeeps(s, work, s.cells[c].home.value, c);
      }
    }
  }

  lemma {:induction false} NewMatches(s: State, members: nat, m: Plain)
    requires Matches(s, m)
    ensures Matches(New(s, members), PlainDo(m, Allocates(members)))
  {
    var r, m' := New(s, members), PlainDo(m, Allocates(members));
    if members == 0 {
      assert m'.cells == m.cells;
      forall c | 0 <= c < |r.cells| ensures SameCell(r, m', c) { assert SameCell(s, m, c); }
    } else {
      NewMatches(s, members - 1, m);
      var r1, m1 := New(s, members - 1), PlainDo(m, Allocates(members - 1));
      NewAdds(s, members - 1);
      assert m'.cells == m1.cells + [Cell(Some(m.objs), None, true)];
      forall c | 0 <= c < |r.cells| ensures SameCell(r, m', c) {
        assert c < |r1.cells| ==> SameCell(r1, m1, c);
      }
    }
  }

  lemma {:induction false} NewAdds(s: State, members: nat)
    ensures New(s, members).objs == s.objs + [Obj(0, true, false)] && New(s, members).queue == s.queue
  {
    if members > 0 { NewAdds(s, members - 1); }
  }

  lemma DestroyMatches(s: State, c: nat, m: Plain)
    requires Counted(s, multiset{}) && Usable(s, c) && s.cells[c].home.None? && Matches(s, m)
    ensures Matches(Destroy(s, c), PlainDo(m, Destroys(c)))
  {
    var held, s0 := Held(s.cells[c]), s.(cells := s.cells[c := s.cells[c].(live := false)]);
    EndedCounted(s, c);
    forall d | 0 <= d < |s0.cells| ensures SameCell(s0, PlainDo(m, Destroys(c)), d) { assert SameCell(s, m, d); }
    ReleaseMatches(s0, held, PlainDo(m, Destroys(c)));
  }

  lemma EndedCounted(s: State, c: nat)
    requires Counted(s, multiset{}) && Usable(s, c) && s.cells[c].home.None?
    ensures InRange(Held(s.cells[c]), |s.objs|)
    ensures Counted(s.(cells := s.cells[c := s.cells[c].(live := false)]), multiset(Held(s.cells[c])))
  {
    HeldInRange(s, c);
    var held, r := Held(s.cells[c]), s.(cells := s.cells[c := s.cells[c].(live := false)]);
    forall o | 0 <= o < |r.objs| ensures ObjOk(r, o, multiset(held)) {
      assert ObjOk(s, o, multiset{});
      CellSet(s.cells, c, r.cells[c], o);
    }
  }

  lemma CopyMatches(s: State, c: nat, d: nat, m: Plain)
    requires Counted(s, multiset{}) && Usable(s, c) && Usable(s, d) && CopyAssign(s, c, d).Some? && Matches(s, m)
    ensures Matches(CopyAssign(s, c, d).value, PlainDo(m, Copies(c, d)))
  {
    var r, m' := CopyAssign(s, c, d).value, PlainDo(m, Copies(c, d));
    assert SameCell(s, m, c) && SameCell(s, m, d);
    if s.cells[c].ref == s.cells[d].ref {
      assert m'.cells == m.cells;
    } else {
      HeldInRange(s, c);
      var s0, held, m0 := SetRef(s, c, None), Held(s.cells[c]), SetPlain(m, c, None);
      SetRefCounted(s, c, None, multiset{}, multiset(held));
      forall e | 0 <= e < |s0.cells| ensures SameCell(s0, m0, e) { assert SameCell(s, m, e); }
      ReleaseMatches(s0, held, m0);
      var s1 := Release(s0, held);
      forall e | 0 <= e < |r.cells| ensures SameCell(r, m', e) { assert SameCell(s1, m0, e); }
    }
  }

  lemma SwapMatches(s: State, c: nat, d: nat, m: Plain)
    requires Usable(s, c) && Usable(s, d) && Matches(s, m)
    ensures Matches(Swap(s, c, d), PlainDo(m, Swaps(c, d)))
  {
    var r, m' := Swap(s, c, d), PlainDo(m, Swaps(c, d));
    assert SameCell(s, m, c) && SameCell(s, m, d);
    forall e | 0 <= e < |r.cells| ensures SameCell(r, m', e) { assert SameCell(s, m, e); }
  }

  lemma AdoptMatches(s: State, c: nat, o: nat, m: Plain)
    requires Usable(s, c) && o < |s.objs| && Matches(s, m)
    ensures Matches(Adopt(s, c, o), PlainDo(m, Adopts(c, o)))
  {
    var r, m' := Adopt(s, c, o), PlainDo(m, Adopts(c, o));
    forall e | 0 <= e < |r.cells| ensures SameCell(r, m', e) { assert SameCell(s, m, e); }
  }

  lemma ForgetMatches(s: State, o: nat, m: Plain)
    requires Counted(s, multiset{}) && o in s.queue && o < |s.objs| && Matches(s, m)
    ensures Matches(Forget(s, o), PlainDo(m, Forgets(o)))
  {
    var s0, m' := s.(queue := s.queue - multiset{o}), PlainDo(m, Forgets(o));
    ForgottenCounted(s, o);
    forall e | 0 <= e < |s0.cells| ensures SameCell(s0, m', e) { assert SameCell(s, m, e); }
    ReleaseMatches(s0, [o], m');
  }

  lemma ForgottenCounted(s: State, o: nat)
    requires Counted(s, multiset{}) && o in s.queue && o < |s.objs|
    ensures Counted(s.(queue := s.queue - multiset{o}), multiset([o]))
  {
    var r := s.(queue := s.queue - multiset{o});
    forall x | 0 <= x < |r.objs| ensures ObjOk(r, x, multiset([o])) { assert ObjOk(s, x, multiset{}); }
  }

  lemma QueueMatches(s: State, o: nat, m: Plain)
    requires o < |s.objs| && Matches(s, m)
    ensures Matches(Schedule(s, o), PlainDo(m, Schedules(o)))
    ensures Matches(PopInto(s, o), PlainDo(m, Pops(o)))
  {
    var r, q := Schedule(s, o), PopInto(s, o);
    forall e | 0 <= e < |r.cells| ensures SameCell(r, PlainDo(m, Schedules(o)), e) { assert SameCell(s, m, e); }
    forall e | 0 <= e < |q.cells| ensures SameCell(q, PlainDo(m, Pops(o)), e) {
      assert e < |s.cells| ==> SameCell(s, m, e);
    }
  }

  lemma DoMatches(s: State, a: Action, m: Plain)
    requires Counted(s, multiset{}) && Enabled(s, a) && Matches(s, m)
    ensures Matches(Do(s, a), PlainDo(m, a))
  {
    hide Counted, CopyAssign, Destroy, Forget, Matches, PlainDo;
    match a
    case Allocates(members) => NewMatches(s, members, m);
    case Declares => DeclareMatches(s, m);
    case Adopts(c, o) => AdoptMatches(s, c, o, m);
    case Copies(c, d) => CopyMatches(s, c, d, m);
    case Swaps(c, d) => SwapMatches(s, c, d, m);
    case Destroys(c) => DestroyMatches(s, c, m);
    case Schedules(o) => QueueMatches(s, o, m);
    case Pops(o) => QueueMatches(s, o, m);
    case Forgets(o) => ForgetMatches(s, o, m);
  }

  lemma DeclareMatches(s: State, m: Plain)
    requires Matches(s, m)
    ensures Matches(Variable(s), PlainDo(m, Declares))
  {
    var r := Variable(s);
    forall e | 0 <= e < |r.cells| ensures SameCell(r, PlainDo(m, Declares), e) {
      assert e < |s.cells| ==> SameCell(s, m, e);
    }
  }

  lemma {:induction false} RunsMatch(s: State, acts: seq<Action>, s': State, m: Plain)
    requires Counted(s, multiset{}) && Runs(s, acts, s') && Matches(s, m)
    ensures Matches(s', Plays(m, acts))
    decreases |acts|
  {
    hide Counted, Matches;
    if acts != [] {
      DoMatches(s, acts[0], m);
      DoCounted(s, acts[0]);
      RunsMatch(Do(s, acts[0]), acts[1..], s', PlainDo(m, acts[0]));
    }
  }

  /** In every run, pointers and the queue hold what they would hold if nothing were counted
      or deleted; only the members of deleted objects are gone. */
  lemma PointersAsPlain(acts: seq<Action>, s: State)
    requires Runs(Empty, acts, s)
    ensures Matches(s, Plays(Plain(0, [], multiset{}), acts))
  {
    RunsMatch(Empty, acts, s, Plain(0, [], multiset{}));
  }

  // ----- what a variable's end deletes -----

  /** The heap without the reference of variable `c`. */
  function Without(s: State, c: nat): State
    requires c < |s.cells|
  {
    s.(cells := s.cells[c := s.cells[c].(live := false)])
  }

  /** Something other than `c` holds `o`. */
  ghost predicate OtherOwner(s: State, c: nat, o: nat) {
    o in s.queue || exists d :: 0 <= d < |s.cells| && d != c && s.cells[d].live && s.cells[d].ref == Some(o)
  }

  /** When a variable goes out of scope it is gone, and every other variable is as before.
      Exactly those objects are left that keep themselves without it. */
  lemma DestroysExactly(s: State, c: nat)
    requires Reachable(s) && WF(s) && Usable(s, c) && s.cells[c].home.None?
    ensures var r := Destroy(s, c);
      && |r.cells| == |s.cells| && |r.objs| == |s.objs| && r.queue == s.queue && !r.cells[c].live
      && (forall d | 0 <= d < |s.cells| && d != c && s.cells[d].home.None? :: r.cells[d] == s.cells[d])
      && (forall o | 0 <= o < |s.objs| ::
            r.objs[o].alive <==> exists k :: SelfSupporting(Without(s, c), k) && o in k)
  {
    hide SelfSupporting;
    ReachableCounted(s);
    EndedCounted(s, c);
    var s0, held := Without(s, c), Held(s.cells[c]);
    ReleaseKeepsCells(s0, held, c);
    forall d | 0 <= d < |s.cells| && d != c && s.cells[d].home.None? ensures Destroy(s, c).cells[d] == s.cells[d] {
      ReleaseKeepsCells(s0, held, d);
    }
    forall o | 0 <= o < |s.objs|
      ensures Destroy(s, c).objs[o].alive <==> exists k :: SelfSupporting(s0, k) && o in k
    {
      ObjectSurvivesIff(s0, held, o);
    }
  }

  /** The object that it held is deleted if and only if it had no other owner; if it had, then
      it has one owner fewer, and nothing else changes. A null pointer changes nothing. */
  lemma LastOwnerDeletes(s: State, c: nat)
    requires Reachable(s) && WF(s) && Usable(s, c) && s.cells[c].home.None?
    ensures s.cells[c].ref.None? ==> Destroy(s, c) == Without(s, c)
    ensures s.cells[c].ref.Some? ==>
      var o := s.cells[c].ref.value;
      && o < |s.objs| && s.objs[o].count > 0
      && (Destroy(s, c).objs[o].alive <==> OtherOwner(s, c, o))
      && (OtherOwner(s, c, o) ==>
            Destroy(s, c) == Without(s, c).(objs := s.objs[o := s.objs[o].(count := s.objs[o].count - 1)]))
  {
    ReachableCounted(s);
    EndedCounted(s, c);
    if s.cells[c].ref.Some? {
      var o, s0 := s.cells[c].ref.value, Without(s, c);
      assert CellWF(s.cells[c], |s.objs|);
      assert ObjOk(s0, o, multiset([o])) && ObjOk(s, o, multiset{});
      OtherOwnerCounts(s, c, o);
      CellCounts(s.cells, c, o);
      if OtherOwner(s, c, o) {
        OnlyDecrements(s0, o);
      } else {
        DecWF(s0, o);
        ReleaseKeeps(Dec(s0, o), Fallout(s0, o) + [o][1..], o, 0);
      }
    }
  }

  lemma OtherOwnerCounts(s: State, c: nat, o: nat)
    requires Counted(s, multiset{}) && Usable(s, c) && s.cells[c].home.None? && o < |s.objs|
    ensures OtherOwner(s, c, o) <==> CellsTo(Without(s, c).cells, o) + s.queue[o] > 0
  {
    var s0 := Without(s, c);
    if CellsTo(s0.cells, o) > 0 {
      var d := SomeCell(s0.cells, o);
      assert s.cells[d].live && s.cells[d].ref == Some(o) && d != c;
    }
    if d :| 0 <= d < |s.cells| && d != c && s.cells[d].live && s.cells[d].ref == Some(o) {
      assert s0.cells[d] == s.cells[d];
      CellCounts(s0.cells, d, o);
    }
  }
}
