/** The reference-counting operations on mutable memory. Deleting an object runs the
    destructors of its members, which may delete further objects. */
module CountedMemory {
  import opened Options
  import opened ReferenceCounts

  class Memory {
    var objs: seq<Obj>
    var cells: seq<Cell>
    var queue: multiset<nat>

    constructor ()
      ensures Contents() == State([], [], multiset{})
    {
      objs, cells, queue := [], [], multiset{};
    }

    ghost function Contents(): State
      reads this
    {
      State(objs, cells, queue)
    }

    method Ref(o: nat)
      requires o < |objs|
      modifies `objs
      ensures Contents() == Inc(old(Contents()), o)
    {
      objs := objs[o := objs[o].(count := objs[o].count + 1, owned := true)];
    }

    /** One reference fewer. The object is deleted when that was the last, and its
        members are destroyed, one after the other. */
    method Unref(o: nat)
      requires WF(Contents()) && o < |objs|
      modifies `objs, `cells
      ensures WF(Contents()) && |objs| == |old(objs)| && |cells| == |old(cells)| && Alive(objs) <= old(Alive(objs))
      ensures InRange([o], |old(objs)|) && Contents() == Release(old(Contents()), [o])
      decreases Alive(objs), 0
    {
      ghost var before := Contents();
      if objs[o].count == 0 {
        return;
      }
      DecWF(before, o);
      assert Fallout(before, o) + [o][1..] == Fallout(before, o);
      var last := objs[o].count == 1 && objs[o].alive;
      objs := objs[o := objs[o].(count := objs[o].count - 1, alive := if last then false else objs[o].alive)];
      if last {
        assert cells[..0] + Kill(cells[0..], o) == Kill(cells, o) && cells[0..] == cells;
        assert KillFrom(Contents(), o, 0) == Dec(before, o);
        DestroyMembers(o, 0);
      }
    }

    /** The destructor of the member in cell `c`. */
    method DestroyMember(c: nat)
      requires WF(Contents()) && c < |cells|
      modifies `objs, `cells
      ensures WF(Contents()) && |objs| == |old(objs)| && |cells| == |old(cells)| && Alive(objs) <= old(Alive(objs))
      ensures WF(Dead(old(Contents()), c)) && InRange(Held(old(cells[c])), |old(objs)|)
      ensures Contents() == Release(Dead(old(Contents()), c), Held(old(cells[c])))
      decreases Alive(objs), 1
    {
      ghost var before := Contents();
      HeldInRange(before, c);
      DeadWF(before, c);
      var held := cells[c].ref;
      cells := cells[c := cells[c].(live := false)];
      if held.Some? {
        Unref(held.value);
      }
    }

    /** The destructors of the members of a deleted object, from cell `c` on. */
    method DestroyMembers(o: nat, c: nat)
      requires WF(Contents()) && o < |objs| && objs[o].count == 0 && c <= |cells|
      modifies `objs, `cells
      ensures WF(Contents()) && |objs| == |old(objs)| && |cells| == |old(cells)| && Alive(objs) <= old(Alive(objs))
      ensures WF(KillFrom(old(Contents()), o, c)) && InRange(Members(old(cells)[c..], o), |objs|)
      ensures Contents() == Release(KillFrom(old(Contents()), o, c), Members(old(cells)[c..], o))
      decreases Alive(objs), 2 + |cells| - c
    {
      ghost var before := Contents();
      KillFromWF(before, o, c);
      MembersInRange(cells[c..], o, |objs|);
      if c < |cells| {
        KillOne(before, o, c);
        if cells[c].live && cells[c].home == Some(o) {
          RestOk(before, o, c);
          DestroyMember(c);
        }
        DestroyMembers(o, c + 1);
      }
    }

    /** Destroying one member and then the rest comes to the same as destroying all. */
    static lemma RestOk(s: State, o: nat, c: nat)
      requires WF(s) && o < |s.objs| && s.objs[o].count == 0 && c < |s.cells|
      requires s.cells[c].live && s.cells[c].home == Some(o)
      ensures WF(Dead(s, c)) && InRange(Held(s.cells[c]), |s.objs|)
      ensures var mid := Release(Dead(s, c), Held(s.cells[c]));
        && WF(mid) && |mid.objs| == |s.objs| && |mid.cells| == |s.cells| && mid.objs[o].count == 0
        && WF(KillFrom(s, o, c)) && InRange(Members(s.cells[c..], o), |s.objs|)
        && WF(KillFrom(mid, o, c + 1)) && InRange(Members(mid.cells[c + 1..], o), |s.objs|)
        && Release(KillFrom(mid, o, c + 1), Members(mid.cells[c + 1..], o))
           == Release(KillFrom(s, o, c), Members(s.cells[c..], o))
    {
      HeldInRange(s, c);
      DeadWF(s, c);
      KillOne(s, o, c);
      var dead, held := Dead(s, c), Held(s.cells[c]);
      MembersInRange(dead.cells[c + 1..], o, |s.objs|);
      ReleaseCommutes(dead, held, o, c + 1);
      ReleaseInTurn(KillFrom(dead, o, c + 1), held, Members(dead.cells[c + 1..], o));
      KillFromWF(Release(dead, held), o, c + 1);
    }

    static lemma DeadWF(s: State, c: nat)
      requires WF(s) && c < |s.cells|
      ensures WF(Dead(s, c))
    {
    }

    static function Dead(s: State, c: nat): State
      requires c < |s.cells|
    {
      s.(cells := s.cells[c := s.cells[c].(live := false)])
    }

    /** What is left to destroy after cell `c`. */
    static lemma KillOne(s: State, o: nat, c: nat)
      requires WF(s) && c < |s.cells|
      ensures var x, dead := s.cells[c], Dead(s, c);
        if x.live && x.home == Some(o)
        then
          && KillFrom(s, o, c) == KillFrom(dead, o, c + 1)
          && Members(s.cells[c..], o) == Held(x) + Members(dead.cells[c + 1..], o)
        else
          && KillFrom(s, o, c) == KillFrom(s, o, c + 1)
          && Members(s.cells[c..], o) == Members(s.cells[c + 1..], o)
    {
      var dead := Dead(s, c);
      assert s.cells[c..][1..] == s.cells[c + 1..] == dead.cells[c + 1..];
      if s.cells[c].live && s.cells[c].home == Some(o) {
        assert KillFrom(s, o, c).cells == KillFrom(dead, o, c + 1).cells;
      } else {
        assert KillFrom(s, o, c).cells == KillFrom(s, o, c + 1).cells;
      }
    }

    /** `new`: an object with null members that nobody owns yet. */
    method Allocate(members: nat) returns (o: nat)
      modifies `objs, `cells
      ensures o == |old(objs)| && Contents() == New(old(Contents()), members)
    {
      o := |objs|;
      ghost var before := Contents();
      objs := objs + [Obj(0, true, false)];
      var i := 0;
      while i < members
        invariant i <= members
        invariant Contents() == New(before, i)
      {
        cells := cells + [Cell(Some(o), None, true)];
        i := i + 1;
      }
    }

    /** `ptr<T> c = o;` for a raw pointer. */
    method AdoptRaw(c: nat, o: nat)
      requires c < |cells| && o < |objs| && cells[c].ref.None?
      modifies `objs, `cells
      ensures Contents() == Adopt(old(Contents()), c, o)
    {
      Ref(o);
      cells := cells[c := cells[c].(ref := Some(o))];
    }

    /** `c = d`; not defined if that deletes one of the two pointers. */
    method Assign(c: nat, d: nat)
      requires WF(Contents()) && c < |cells| && d < |cells| && CopyAssign(Contents(), c, d).Some?
      modifies `objs, `cells
      ensures Contents() == CopyAssign(old(Contents()), c, d).value
    {
      if cells[c].ref != cells[d].ref {
        HeldInRange(Contents(), c);
        ReleaseKeepsCells(SetRef(Contents(), c, None), Held(cells[c]), d);
        assert CellWF(cells[c], |objs|) && CellWF(cells[d], |objs|);
        var held := cells[c].ref;
        cells := cells[c := cells[c].(ref := None)];
        if held.Some? {
          Unref(held.value);
        }
        if cells[d].ref.Some? {
          Ref(cells[d].ref.value);
          cells := cells[c := cells[c].(ref := cells[d].ref)];
        }
      }
    }

    method SwapWith(c: nat, d: nat)
      requires c < |cells| && d < |cells|
      modifies `cells
      ensures Contents() == Swap(old(Contents()), c, d)
    {
      var x, y := cells[c].ref, cells[d].ref;
      cells := cells[c := cells[c].(ref := y)];
      cells := cells[d := cells[d].(ref := x)];
    }

    method DestroyVariable(c: nat)
      requires WF(Contents()) && c < |cells|
      modifies `objs, `cells
      ensures Contents() == Destroy(old(Contents()), c)
    {
      HeldInRange(Contents(), c);
      assert CellWF(cells[c], |objs|);
      var held := cells[c].ref;
      cells := cells[c := cells[c].(live := false)];
      if held.Some? {
        Unref(held.value);
      }
    }

    method ScheduleToken(o: nat)
      requires o < |objs|
      modifies `objs, `queue
      ensures Contents() == Schedule(old(Contents()), o)
    {
      Ref(o);
      queue := queue + multiset{o};
    }

    /** The popped token is referenced by a new variable before the queue lets go. */
    method PopToken(o: nat) returns (c: nat)
      requires Counted(Contents(), multiset{}) && o in queue
      modifies this
      ensures c == |old(cells)| && o < |old(objs)| && Contents() == PopInto(old(Contents()), o)
    {
      ghost var before := Contents();
      assert ObjOk(before, o, multiset{});
      c := |cells|;
      Ref(o);
      cells := cells + [Cell(None, Some(o), true)];
      assert WF(Contents()) by {
        forall d | 0 <= d < |cells| ensures CellWF(cells[d], |objs|) {
          assert d < |before.cells| ==> CellWF(before.cells[d], |objs|);
        }
      }
      OnlyDecrements(Contents(), o);
      Unref(o);
      assert objs == before.objs;
      queue := queue - multiset{o};
    }

    /** `reset`, as far as the queue is concerned. */
    method ForgetToken(o: nat)
      requires WF(Contents()) && o in queue
      modifies this
      ensures o < |old(objs)| && Contents() == Forget(old(Contents()), o)
    {
      queue := queue - multiset{o};
      Unref(o);
    }
  }
}
