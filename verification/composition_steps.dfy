/** The actions on compositions, one by one. */
module CompositionSteps {
  import opened Options
  import opened AwaitAlgebra
  import opened CompositionMachine
  import opened CompositionInvariant
  import K = KernelState

  // ----- compositions that are not concerned -----

  /** As far as the handler of `g` is concerned. */
  predicate SameChild(x: Part, y: Part, g: nat) {
    && (y.parent == Some(g) <==> x.parent == Some(g))
    && (Handled(y, g) <==> Handled(x, g)) && (HandledClean(y, g) <==> HandledClean(x, g))
    && (x.parent == Some(g) ==> (y.place.Idle? <==> x.place.Idle?))
  }

  /** The composition `g` is what it was, and none of its children's tokens was taken. */
  ghost predicate Undisturbed(w: World, r: World, g: nat)
    requires g < |w.parts|
  {
    && |w.parts| <= |r.parts| && r.parts[g].kind == w.parts[g].kind
    && (HasLeft(r.parts[g]) <==> HasLeft(w.parts[g])) && (r.parts[g].place.Idle? <==> w.parts[g].place.Idle?)
    && (forall c | 0 <= c < |w.parts| :: SameChild(w.parts[c], r.parts[c], g))
    && (forall c | |w.parts| <= c < |r.parts| :: r.parts[c].parent != Some(g) && r.parts[c].handler != Some(g))
    && LastTaken(r.parts, r.log, g) == LastTaken(w.parts, w.log, g)
  }

  lemma GroupKept(w: World, r: World, g: nat)
    requires g < |w.parts| && w.parts[g].kind.Composed? && Undisturbed(w, r, g) && GroupOk(w, g)
    ensures GroupOk(r, g)
  {
    forall c | 0 <= c < |w.parts|
      ensures r.parts[c].parent == Some(g) <==> w.parts[c].parent == Some(g)
      ensures IsPending(r.parts[c], g) <==> IsPending(w.parts[c], g)
      ensures HandledClean(r.parts[c], g) <==> HandledClean(w.parts[c], g)
    {
      assert SameChild(w.parts[c], r.parts[c], g);
    }
    assert Children(r.parts, g) == Children(w.parts, g);
    assert Pending(r.parts, g) == Pending(w.parts, g);
    if c :| 0 <= c < |w.parts| && HandledClean(w.parts[c], g) {
      assert HandledClean(r.parts[c], g);
    }
    LastIsHandled(w.parts, w.log, g);
  }

  /** Why composition `g` fired stays, with what its handler has taken since. */
  lemma FiringKept(w: World, r: World, g: nat, c: nat)
    requires g < |w.parts| <= |r.parts| && w.parts[g].kind.Composed? && Firing(w, g, c)
    requires r.parts[g].kind == w.parts[g].kind && r.parts[g].time == w.parts[g].time
    requires r.parts[g].latency == w.parts[g].latency
    requires forall j | 0 <= j < |w.parts| && Handled(w.parts[j], g) ::
      Handled(r.parts[j], g) && r.parts[j].time == w.parts[j].time && r.parts[j].error == w.parts[j].error
    requires forall j | 0 <= j < |r.parts| && Handled(r.parts[j], g) :: j < |w.parts| && Handled(w.parts[j], g)
    ensures Firing(r, g, c)
  {
  }

  // ----- time passes -----

  lemma TickOk(w: World, t: int)
    requires Inv(w) && Enabled(w, Ticks(t))
    ensures Inv(w.(now := t))
  {
    var r := w.(now := t);
    assert WF(r) by {
      forall h | 0 <= h < |r.handles| ensures HandleWF(r, r.handles[h]) { assert HandleWF(w, w.handles[h]); }
      forall i | 0 <= i < |r.parts| ensures PartWF(r, i) { assert PartWF(w, i); }
    }
    assert Core(r) by {
      forall i | 0 <= i < |r.parts| ensures PartOk(r, i) { assert PartOk(w, i); }
      forall c | 0 <= c < |r.coros| ensures CoroOk(r, c) { assert CoroOk(w, c); }
      forall h | 0 <= h < |r.handles| ensures HandleOk(r, h) { assert HandleOk(w, h); }
    }
    QuietOk(w, r);
    if Orderly(r) {
      assert Orderly(w);
      forall i | 0 <= i < |r.parts| ensures TimeOk(r, i) {
        assert TimeOk(w, i);
        if c: nat :| r.parts[i].kind.Composed? && HasLeft(r.parts[i]) && Firing(w, i, c) {
          assert Firing(r, i, c);
        }
      }
    }
    forall p | 0 <= p < |r.waits| ensures WayOk(r, p) { assert WayOk(w, p); }
  }

  // ----- what does not touch the nodes -----

  /** Nothing happens to the nodes, and nothing is resumed or taken. */
  lemma QuietOk(w: World, r: World)
    requires Groups(w) && Logs(w) && WF(r) && r.parts == w.parts && r.coros == w.coros && |r.handles| == |w.handles|
    requires |r.waits| == |w.waits| && forall h | 0 <= h < |w.handles| :: r.handles[h].coro == w.handles[h].coro
    requires w.log <= r.log && forall k | |w.log| <= k < |r.log| :: !r.log[k].Took?
    ensures Extends(w, r) && Groups(r) && forall k | 0 <= k < |w.log| :: LogOk(r, k)
  {
    hide LogOk;
    forall i | 0 <= i < |w.parts| ensures Kept(w.parts[i], r.parts[i]) {}
    LogsKept(w, r);
    TookBelow(w);
    forall g | 0 <= g < |r.parts| && r.parts[g].kind.Composed? ensures GroupOk(r, g) {
      LastTakenSame(w.parts, r.parts, w.log, r.log, g);
      assert GroupOk(w, g);
      assert Undisturbed(w, r, g);
      GroupKept(w, r, g);
    }
  }

  lemma TookBelow(w: World)
    requires Logs(w)
    ensures forall k | 0 <= k < |w.log| && w.log[k].Took? ::
      w.log[k].i < |w.parts| && w.parts[w.log[k].i].place.Taken?
  {
    forall k | 0 <= k < |w.log| && w.log[k].Took? ensures w.log[k].i < |w.parts| && w.parts[w.log[k].i].place.Taken? {
      assert LogOk(w, k) && TookOk(w, k);
    }
  }

  lemma TimesSame(w: World, r: World)
    requires Times(w) && r.parts == w.parts && r.now == w.now
    ensures Times(r)
  {
    if Orderly(r) {
      assert Orderly(w);
      forall i | 0 <= i < |r.parts| ensures TimeOk(r, i) {
        assert TimeOk(w, i);
        if c: nat :| r.parts[i].kind.Composed? && HasLeft(r.parts[i]) && Firing(w, i, c) {
          assert Firing(r, i, c);
        }
      }
    }
  }

  // ----- await_resume -----

  predicate AllKnown(parts: seq<Part>, handles: seq<Handle>) {
    forall j | 0 <= j < |parts| && parts[j].kind.Through? :: parts[j].kind.h < |handles|
  }

  ghost predicate VisitedFrom(parts: seq<Part>, visited: set<nat>, r: nat, a: nat, b: nat) {
    forall h :: h in visited <==> exists j: nat :: a <= j < b && LeafOf(parts, j, r) && parts[j].kind.h == h
  }

  ghost predicate StopsAt(parts: seq<Part>, handles: seq<Handle>, r: nat, i: nat, j: nat, e: Option<int>)
    requires AllKnown(parts, handles)
  {
    && LeafOf(parts, j, r) && TokenError(parts, handles[parts[j].kind.h]) == e
    && forall c | i <= c < j && LeafOf(parts, c, r) :: TokenError(parts, handles[parts[c].kind.h]).None?
  }

  lemma VisitedSkip(parts: seq<Part>, visited: set<nat>, r: nat, a: nat, b: nat)
    requires VisitedFrom(parts, visited, r, a + 1, b) && !LeafOf(parts, a, r)
    ensures VisitedFrom(parts, visited, r, a, b)
  {
    forall h ensures h in visited <==> exists j: nat :: a <= j < b && LeafOf(parts, j, r) && parts[j].kind.h == h {
      if j: nat :| a <= j < b && LeafOf(parts, j, r) && parts[j].kind.h == h {
        assert a + 1 <= j < b;
      }
    }
  }

  lemma VisitedMore(parts: seq<Part>, visited: set<nat>, r: nat, a: nat, b: nat)
    requires VisitedFrom(parts, visited, r, a + 1, b) && LeafOf(parts, a, r) && a < b
    ensures VisitedFrom(parts, visited + {parts[a].kind.h}, r, a, b)
  {
    var all := visited + {parts[a].kind.h};
    forall h ensures h in all <==> exists j: nat :: a <= j < b && LeafOf(parts, j, r) && parts[j].kind.h == h {
      if j: nat :| a <= j < b && LeafOf(parts, j, r) && parts[j].kind.h == h {
        assert j == a || a + 1 <= j < b;
      }
      if h == parts[a].kind.h {
        assert a <= a < b && LeafOf(parts, a, r);
      }
    }
  }

  /** What `v` says about the visits from node `i` on. */
  ghost predicate VisitIs(parts: seq<Part>, handles: seq<Handle>, r: nat, i: nat, v: Visits)
    requires AllKnown(parts, handles)
  {
    && |v.handles| == |handles|
    && (forall h | 0 <= h < |handles| ::
          v.handles[h] == handles[h].(token := if h in v.visited then None else handles[h].token))
    && match v.error
       case None =>
         && (forall j | i <= j && LeafOf(parts, j, r) :: TokenError(parts, handles[parts[j].kind.h]).None?)
         && VisitedFrom(parts, v.visited, r, i, |parts|)
       case Some(_) =>
         exists j :: i <= j && StopsAt(parts, handles, r, i, j, v.error) && VisitedFrom(parts, v.visited, r, i, j + 1)
  }

  /** A leaf whose handle carries no exception. */
  lemma VisitOn(parts: seq<Part>, handles: seq<Handle>, r: nat, i: nat, rest: Visits)
    requires AllKnown(parts, handles) && LeafOf(parts, i, r) && TokenError(parts, handles[parts[i].kind.h]).None?
    requires VisitIs(parts, Cleared(handles, parts[i].kind.h), r, i + 1, rest)
    ensures VisitIs(parts, handles, r, i, rest.(visited := rest.visited + {parts[i].kind.h}))
  {
    var h := parts[i].kind.h;
    var cleared := Cleared(handles, h);
    forall g | 0 <= g < |handles| ensures TokenError(parts, cleared[g]) == TokenError(parts, handles[g]) {}
    assert forall g | 0 <= g < |handles| ::
        rest.handles[g] == handles[g].(token := if g in rest.visited + {h} then None else handles[g].token);
    assert |cleared| == |handles|;
    hide Cleared, TokenError;
    if rest.error.Some? {
      VisitOnStop(parts, handles, cleared, r, i, rest);
    } else {
      VisitedMore(parts, rest.visited, r, i, |parts|);
      hide VisitedFrom;
    }
  }

  lemma VisitOnStop(parts: seq<Part>, handles: seq<Handle>, cleared: seq<Handle>, r: nat, i: nat, rest: Visits)
    requires AllKnown(parts, handles) && LeafOf(parts, i, r) && |cleared| == |handles|
    requires TokenError(parts, handles[parts[i].kind.h]).None?
    requires forall g | 0 <= g < |handles| :: TokenError(parts, cleared[g]) == TokenError(parts, handles[g])
    requires rest.error.Some? && VisitIs(parts, cleared, r, i + 1, rest)
    ensures exists j :: i <= j && StopsAt(parts, handles, r, i, j, rest.error)
                        && VisitedFrom(parts, rest.visited + {parts[i].kind.h}, r, i, j + 1)
  {
    hide TokenError;
    var j: nat :| i + 1 <= j && StopsAt(parts, cleared, r, i + 1, j, rest.error)
      && VisitedFrom(parts, rest.visited, r, i + 1, j + 1);
    hide VisitIs;
    StopsLater(parts, handles, cleared, r, i, j, rest.error);
    VisitedMore(parts, rest.visited, r, i, j + 1);
  }

  lemma StopsLater(parts: seq<Part>, handles: seq<Handle>, cleared: seq<Handle>, r: nat, i: nat, j: nat, e: Option<int>)
    requires AllKnown(parts, handles) && LeafOf(parts, i, r) && |cleared| == |handles|
    requires TokenError(parts, handles[parts[i].kind.h]).None? && StopsAt(parts, cleared, r, i + 1, j, e)
    requires forall g | 0 <= g < |handles| :: TokenError(parts, cleared[g]) == TokenError(parts, handles[g])
    ensures StopsAt(parts, handles, r, i, j, e)
  {
    hide TokenError;
  }

  lemma VisitStop(parts: seq<Part>, handles: seq<Handle>, r: nat, i: nat)
    requires AllKnown(parts, handles) && LeafOf(parts, i, r) && TokenError(parts, handles[parts[i].kind.h]).Some?
    ensures VisitIs(parts, handles, r, i, VisitFrom(parts, handles, r, i))
  {
    var h := parts[i].kind.h;
    assert StopsAt(parts, handles, r, i, i, TokenError(parts, handles[h]));
    assert VisitedFrom(parts, {}, r, i + 1, i + 1);
    VisitedMore(parts, {}, r, i, i + 1);
    assert {} + {h} == {h};
  }

  lemma VisitSkip(parts: seq<Part>, handles: seq<Handle>, r: nat, i: nat, v: Visits)
    requires AllKnown(parts, handles) && i < |parts| && !LeafOf(parts, i, r) && VisitIs(parts, handles, r, i + 1, v)
    ensures VisitIs(parts, handles, r, i, v)
  {
    hide TokenError;
    if v.error.Some? {
      var j :| i + 1 <= j && StopsAt(parts, handles, r, i + 1, j, v.error)
        && VisitedFrom(parts, v.visited, r, i + 1, j + 1);
      assert StopsAt(parts, handles, r, i, j, v.error);
      VisitedSkip(parts, v.visited, r, i, j + 1);
    } else {
      VisitedSkip(parts, v.visited, r, i, |parts|);
    }
  }

  /** Which handles are visited, and which exception ends the visits. */
  lemma {:induction false} VisitSpec(parts: seq<Part>, handles: seq<Handle>, r: nat, i: nat)
    requires AllKnown(parts, handles)
    ensures VisitIs(parts, handles, r, i, VisitFrom(parts, handles, r, i))
    decreases |parts| - i
  {
    if i < |parts| {
      if !LeafOf(parts, i, r) {
        VisitSpec(parts, handles, r, i + 1);
        VisitSkip(parts, handles, r, i, VisitFrom(parts, handles, r, i));
      } else if TokenError(parts, handles[parts[i].kind.h]).Some? {
        VisitStop(parts, handles, r, i);
      } else {
        var cleared := Cleared(handles, parts[i].kind.h);
        VisitSpec(parts, cleared, r, i + 1);
        VisitOn(parts, handles, r, i, VisitFrom(parts, cleared, r, i + 1));
      }
    }
  }

  /** A handle carries an exception exactly if, by the history, it holds a token whose
      coroutine has thrown. */
  lemma TokenErrorIs(w: World, h: nat)
    requires Core(w) && h < |w.handles|
    ensures var e := TokenError(w.parts, w.handles[h]);
      && HandleWF(w, w.handles[h])
      && (e.Some? <==> HoldsToken(w.log, h) && HasThrown(w.log, w.handles[h].coro))
      && (e.Some? ==> Ended(w.handles[h].coro, Threw(e.value)) in w.log)
  {
    assert HandleWF(w, w.handles[h]) && HandleOk(w, h);
    var c := w.handles[h].coro;
    assert CoroOk(w, c);
    if HasThrown(w.log, c) {
      var e :| Ended(c, Threw(e)) in w.log;
      assert w.coros[c].done == Some(Threw(e));
    }
    if w.handles[h].token.Some? {
      var t := w.handles[h].token.value;
      assert PartWF(w, t) && PartOk(w, t);
      if w.parts[t].error.Some? {
        assert w.coros[c].done == Some(Threw(w.parts[t].error.value));
      }
    }
  }

  lemma ResumeCore(w: World, p: nat, r: nat)
    requires Core(w) && p < |w.waits|
    ensures Core(Resume(w, p, r)) && |Resume(w, p, r).handles| == |w.handles|
    ensures forall h | 0 <= h < |w.handles| :: Resume(w, p, r).handles[h].coro == w.handles[h].coro
  {
    var w' := Resume(w, p, r);
    HandlesKnown(w);
    VisitSpec(w.parts, w.handles, r, 0);
    var x := w'.log[|w.log|];
    assert w'.log == w.log + [x];
    forall h | 0 <= h < |w'.handles| ensures HandleWF(w', w'.handles[h]) && HandleOk(w', h) {
      assert HandleWF(w, w.handles[h]) && HandleOk(w, h);
      HoldsMore(w.log, x, h);
    }
    forall i | 0 <= i < |w'.parts| ensures PartWF(w', i) && PartOk(w', i) { assert PartWF(w, i) && PartOk(w, i); }
    forall c | 0 <= c < |w'.coros| ensures CoroOk(w', c) { assert CoroOk(w, c); }
  }

  lemma CarriesIs(w: World, r: World, h: nat)
    requires Core(w) && h < |w.handles| && w.log <= r.log && |r.handles| == |w.handles|
    requires r.handles[h].coro == w.handles[h].coro
    ensures Carries(r, |w.log|, h) <==> TokenError(w.parts, w.handles[h]).Some?
    ensures HandleWF(w, w.handles[h])
  {
    assert r.log[..|w.log|] == w.log;
    TokenErrorIs(w, h);
  }

  /** What the process sees is what the history says. */
  lemma ResumeWoke(w: World, p: nat, r: nat)
    requires Core(w) && p < |w.waits| && r < |w.parts|
    ensures WokeOk(Resume(w, p, r), |w.log|)
  {
    var w', k := Resume(w, p, r), |w.log|;
    HandlesKnown(w);
    var v := VisitFrom(w.parts, w.handles, r, 0);
    VisitSpec(w.parts, w.handles, r, 0);
    assert w'.log[..k] == w.log && w'.parts == w.parts && w'.handles == v.handles;
    assert w'.log[k] == Woke(r, SeenOf(v.error), v.visited);
    forall h | 0 <= h < |w.handles| ensures Carries(w', k, h) <==> TokenError(w.parts, w.handles[h]).Some? {
      CarriesIs(w, w', h);
    }
    if v.error.Some? {
      var j: nat :| StopsAt(w.parts, w.handles, r, 0, j, v.error) && VisitedFrom(w.parts, v.visited, r, 0, j + 1);
      TokenErrorIs(w, w.parts[j].kind.h);
      hide Core, Resume, VisitFrom, TokenError, Carries;
      assert Meets(w', k, r, j, v.error.value);
      VisitedFromStart(w.parts, v.visited, r, j + 1);
    } else {
      hide Core, Resume, VisitFrom, TokenError, Carries;
      VisitedFromStart(w.parts, v.visited, r, |w.parts|);
    }
  }

  lemma HandlesKnown(w: World)
    requires WF(w)
    ensures AllKnown(w.parts, w.handles)
  {
    forall j | 0 <= j < |w.parts| && w.parts[j].kind.Through? ensures w.parts[j].kind.h < |w.handles| {
      assert PartWF(w, j);
    }
  }

  lemma VisitedFromStart(parts: seq<Part>, visited: set<nat>, r: nat, b: nat)
    requires VisitedFrom(parts, visited, r, 0, b)
    ensures VisitedBelow(parts, visited, r, b)
  {
    forall h ensures h in visited <==> exists j: nat :: j < b && LeafOf(parts, j, r) && parts[j].kind.h == h {
      if j: nat :| j < b && LeafOf(parts, j, r) && parts[j].kind.h == h {
        assert 0 <= j < b;
      }
      if j: nat :| 0 <= j < b && LeafOf(parts, j, r) && parts[j].kind.h == h {
        assert j < b;
      }
    }
  }

  /** `p` goes on: nothing may be left that would resume it. */
  lemma ResumeOk(w: World, p: nat, r: nat)
    requires Core(w) && Groups(w) && Times(w) && Logs(w) && p < |w.waits| && r < |w.parts|
    requires forall q | 0 <= q < |w.waits| && q != p :: WayOk(w, q)
    requires forall q | 0 <= q < |w.waits| && w.waits[q].Some? :: w.waits[q].value < |w.parts|
    requires WayOk(w.(waits := w.waits[p := None]), p)
    ensures Inv(Resume(w, p, r))
  {
    var w' := Resume(w, p, r);
    var x := w'.log[|w.log|];
    ResumeCore(w, p, r);
    QuietOk(w, w');
    ResumeWoke(w, p, r);
    TimesSame(w, w');
    hide Core, WokeOk;
    forall k | 0 <= k < |w'.log| ensures LogOk(w', k) {}
    forall q | 0 <= q < |w'.waits| ensures WayOk(w', q) {
      assert Refused(Some(q)) in w.log ==> Refused(Some(q)) in w'.log;
      if q != p {
        assert WayOk(w, q);
        forall i: nat ensures Waker(w', i, q) <==> Waker(w, i, q) {}
      }
    }
  }

  /** `async` gives up the completion token. */
  lemma VisitOk(w: World, h: nat)
    requires Inv(w) && h < |w.handles|
    ensures Inv(Visit(w, h))
  {
    var r := Visit(w, h);
    var x := r.log[|w.log|];
    assert r.log == w.log + [x];
    forall g | 0 <= g < |r.handles| ensures HandleWF(r, r.handles[g]) && HandleOk(r, g) {
      assert HandleWF(w, w.handles[g]) && HandleOk(w, g);
      HoldsMore(w.log, x, g);
    }
    forall i | 0 <= i < |r.parts| ensures PartWF(r, i) && PartOk(r, i) { assert PartWF(w, i) && PartOk(w, i); }
    forall c | 0 <= c < |r.coros| ensures CoroOk(r, c) { assert CoroOk(w, c); }
    QuietOk(w, r);
    TimesSame(w, r);
    WaysSame(w, r);
  }

  /** Nobody is resumed, refused or suspended. */
  lemma WaysSame(w: World, r: World)
    requires Ways(w) && r.waits == w.waits && |r.parts| == |w.parts|
    requires forall i | 0 <= i < |w.parts| :: SameWaker(w.parts[i], r.parts[i])
    requires forall p: nat :: Refused(Some(p)) in w.log ==> Refused(Some(p)) in r.log
    ensures Ways(r)
  {
    forall p | 0 <= p < |r.waits| ensures WayOk(r, p) {
      assert WayOk(w, p);
      forall i: nat ensures Waker(r, i, p) <==> Waker(w, i, p) {
        assert i < |w.parts| ==> SameWaker(w.parts[i], r.parts[i]);
      }
      forall i | 0 <= i < |r.parts| && Refused(Some(p)) !in w.log ensures Linked(r.parts[i], p) {
        assert Linked(w.parts[i], p) && SameWaker(w.parts[i], r.parts[i]);
      }
    }
  }

  predicate SameWaker(x: Part, y: Part) {
    && y.proc == x.proc && y.parent == x.parent && y.handler == x.handler
    && (y.place.Held? || y.place.InQueue? <==> x.place.Held? || x.place.InQueue?)
  }

  // ----- a coroutine ends, an event wakes -----

  /** Tokens that were held are queued, none of a composition. */
  predicate Released(w: World, x: Part, y: Part) {
    y == x || (x.place.Held? && !x.kind.Composed?
               && y == x.(place := InQueue, time := w.now + x.latency, error := y.error))
  }

  lemma ReleasedOk(w: World, r: World)
    requires Inv(w) && WF(r) && |r.parts| == |w.parts| && |r.coros| == |w.coros| && r.handles == w.handles
    requires r.waits == w.waits && r.now == w.now
    requires forall i | 0 <= i < |w.parts| :: Released(w, w.parts[i], r.parts[i])
    requires forall i | 0 <= i < |w.parts| :: w.parts[i].error.Some? ==> r.parts[i] == w.parts[i]
    requires w.log <= r.log && forall k | |w.log| <= k < |r.log| :: !r.log[k].Took? && !r.log[k].Woke?
    ensures Groups(r) && Times(r) && Logs(r) && Ways(r)
  {
    forall i | 0 <= i < |w.parts|
      ensures Kept(w.parts[i], r.parts[i]) && SameWaker(w.parts[i], r.parts[i])
    {
      assert Released(w, w.parts[i], r.parts[i]);
    }
    WaysSame(w, r);
    TookBelow(w);
    ReleasedGroups(w, r);
    ReleasedTimes(w, r);
    hide Core, Groups, Times, Ways, LogOk;
    LogsKept(w, r);
    forall k | |w.log| <= k < |r.log| ensures LogOk(r, k) { QuietLog(r, k); }
  }

  lemma QuietLog(w: World, k: nat)
    requires k < |w.log| && !w.log[k].Took? && !w.log[k].Woke?
    ensures LogOk(w, k)
  {
  }

  lemma ReleasedGroups(w: World, r: World)
    requires Groups(w) && |r.parts| == |w.parts|
    requires forall i | 0 <= i < |w.parts| :: Released(w, w.parts[i], r.parts[i])
    requires forall k | 0 <= k < |w.log| && w.log[k].Took? :: w.log[k].i < |w.parts|
    requires w.log <= r.log && forall k | |w.log| <= k < |r.log| :: !r.log[k].Took?
    ensures Groups(r)
  {
    forall g | 0 <= g < |r.parts| && r.parts[g].kind.Composed? ensures GroupOk(r, g) {
      assert Released(w, w.parts[g], r.parts[g]) && GroupOk(w, g);
      forall k | 0 <= k < |w.log| && w.log[k].Took?
        ensures r.parts[w.log[k].i].handler == w.parts[w.log[k].i].handler
      {
        assert Released(w, w.parts[w.log[k].i], r.parts[w.log[k].i]);
      }
      LastTakenSame(w.parts, r.parts, w.log, r.log, g);
      forall c | 0 <= c < |w.parts| ensures SameChild(w.parts[c], r.parts[c], g) {
        assert Released(w, w.parts[c], r.parts[c]);
      }
      GroupKept(w, r, g);
    }
  }

  lemma ReleasedTimes(w: World, r: World)
    requires Times(w) && |r.parts| == |w.parts| && r.now == w.now
    requires forall i | 0 <= i < |w.parts| :: Released(w, w.parts[i], r.parts[i])
    requires forall i | 0 <= i < |w.parts| :: w.parts[i].error.Some? ==> r.parts[i] == w.parts[i]
    ensures Times(r)
  {
    if Orderly(r) {
      forall i | 0 <= i < |w.parts| ensures !IsBare(w.parts[i]) {
        assert Released(w, w.parts[i], r.parts[i]) && !IsBare(r.parts[i]);
      }
      forall i | 0 <= i < |r.parts| ensures TimeOk(r, i) {
        assert Released(w, w.parts[i], r.parts[i]) && TimeOk(w, i);
        if c: nat :| r.parts[i].kind.Composed? && HasLeft(r.parts[i]) && Firing(w, i, c) {
          forall j | 0 <= j < |w.parts| ensures
            Handled(w.parts[j], i) || Handled(r.parts[j], i) ==> r.parts[j] == w.parts[j]
          {
            assert Released(w, w.parts[j], r.parts[j]);
          }
          FiringKept(w, r, i, c);
        }
      }
    }
  }

  lemma EndOk(w: World, c: nat, o: Outcome)
    requires Inv(w) && Enabled(w, Ends(c, o))
    ensures Inv(End(w, c, o))
  {
    var r := End(w, c, o);
    EndCore(w, c, o);
    forall i | 0 <= i < |w.parts|
      ensures Released(w, w.parts[i], r.parts[i]) && (w.parts[i].error.Some? ==> r.parts[i] == w.parts[i])
    {
      assert PartWF(w, i) && PartOk(w, i);
    }
    ReleasedOk(w, r);
  }

  lemma EndCore(w: World, c: nat, o: Outcome)
    requires Core(w) && c < |w.coros| && w.coros[c].done.None?
    ensures Core(End(w, c, o))
  {
    var r := End(w, c, o);
    forall h | 0 <= h < |r.handles| ensures HandleWF(r, r.handles[h]) && HandleOk(r, h) {
      assert HandleWF(w, w.handles[h]) && HandleOk(w, h);
      HoldsMore(w.log, Ended(c, o), h);
    }
    forall i | 0 <= i < |r.parts| ensures PartWF(r, i) && PartOk(r, i) {
      assert PartWF(w, i) && PartOk(w, i);
      assert w.parts[i].kind.Through? ==> HandleWF(w, w.handles[w.parts[i].kind.h]);
    }
    forall d | 0 <= d < |r.coros| ensures CoroOk(r, d) { assert CoroOk(w, d); }
  }

  lemma SignalledOk(w: World, e: nat)
    requires Inv(w)
    ensures Inv(Signalled(w, e))
  {
    var r := Signalled(w, e);
    forall h | 0 <= h < |r.handles| ensures HandleWF(r, r.handles[h]) && HandleOk(r, h) {
      assert HandleWF(w, w.handles[h]) && HandleOk(w, h);
    }
    forall i | 0 <= i < |r.parts| ensures PartWF(r, i) && PartOk(r, i) { assert PartWF(w, i) && PartOk(w, i); }
    forall c | 0 <= c < |r.coros| ensures CoroOk(r, c) { assert CoroOk(w, c); }
    forall i | 0 <= i < |w.parts|
      ensures Released(w, w.parts[i], r.parts[i]) && (w.parts[i].error.Some? ==> r.parts[i] == w.parts[i])
    {
      assert PartOk(w, i);
    }
    ReleasedOk(w, r);
  }

  // ----- a token is taken -----

  /** What becomes of the other nodes. */
  lemma PopShape(w: World, i: nat)
    requires WF(w) && i < |w.parts| && w.parts[i].place.InQueue? && PartWF(w, i)
    ensures var x, r := w.parts[i], Pop(w, i);
      && |r.parts| == |w.parts| && r.parts[i] == x.(place := Taken)
      && (forall j | 0 <= j < |w.parts| && j != i && Some(j) != x.handler :: r.parts[j] == w.parts[j])
      && (x.handler.Some? ==>
            && x.handler.value < i && r.parts[x.handler.value] == Count(w.parts[x.handler.value], x))
      && (forall j | 0 <= j < |w.parts| :: Kept(w.parts[j], r.parts[j]))
      && r.log == w.log + [Took(i, r.now, if Reports(x) then x.error else None)]
  {
  }

  lemma PopExtends(w: World, i: nat)
    requires WF(w) && i < |w.parts| && w.parts[i].place.InQueue? && PartWF(w, i)
    ensures Extends(w, Pop(w, i))
  {
    PopShape(w, i);
    PopWF(w, i);
  }

  lemma PopTook(w: World, i: nat)
    requires Core(w) && Times(w) && i < |w.parts| && w.parts[i].place.InQueue? && PartWF(w, i)
    ensures var r := Pop(w, i); |r.log| == |w.log| + 1 && r.log[|w.log|].Took? && TookOk(r, |w.log|)
  {
    var r, k := Pop(w, i), |w.log|;
    PopShape(w, i);
    PopWF(w, i);
    PopExtends(w, i);
    assert r.log[..k] == w.log;
    assert PartOk(w, i) && PartWF(r, i);
    if w.parts[i].kind.Through? {
      var c := w.handles[w.parts[i].kind.h].coro;
      assert HandleWF(w, w.handles[w.parts[i].kind.h]) && CoroOk(w, c);
      if HasThrown(w.log, c) {
        var e :| Ended(c, Threw(e)) in w.log;
        assert w.coros[c].done == Some(Threw(e));
      }
      if w.parts[i].error.Some? {
        assert w.coros[c].done == Some(Threw(w.parts[i].error.value));
      }
    }
    if Orderly(r) {
      OrderlyBefore(w, r);
      assert TimeOk(w, i);
    }
  }

  lemma PopPart(w: World, i: nat, j: nat)
    requires WF(w) && i < |w.parts| && w.parts[i].place.InQueue? && PartWF(w, i) && WF(Pop(w, i))
    requires j < |w.parts| && PartWF(w, j) && PartOk(w, j) && PartOk(w, i)
    ensures |Pop(w, i).parts| == |w.parts| && PartWF(Pop(w, i), j) && PartOk(Pop(w, i), j)
  {
    PopShape(w, i);
    var r := Pop(w, i);
    assert PartWF(r, j);
    assert r.handles == w.handles && r.coros == w.coros;
    hide Pop;
  }

  lemma PopHandle(w: World, i: nat, h: nat)
    requires WF(w) && i < |w.parts| && w.parts[i].place.InQueue? && PartWF(w, i)
    requires h < |w.handles| && HandleOk(w, h)
    ensures HandleOk(Pop(w, i), h)
  {
    PopShape(w, i);
    var r := Pop(w, i);
    HoldsMore(w.log, r.log[|w.log|], h);
    assert r.handles == w.handles;
    hide Pop;
  }

  lemma PopCore(w: World, i: nat)
    requires Core(w) && i < |w.parts| && w.parts[i].place.InQueue?
    ensures Core(Pop(w, i)) && PartWF(w, i)
  {
    PopWF(w, i);
    var r := Pop(w, i);
    assert PartWF(w, i) && PartOk(w, i);
    assert r.coros == w.coros && r.handles == w.handles && |r.parts| == |w.parts|;
    forall h | 0 <= h < |r.handles| ensures HandleOk(r, h) {
      assert HandleOk(w, h);
      PopHandle(w, i, h);
    }
    forall j | 0 <= j < |r.parts| ensures PartWF(r, j) && PartOk(r, j) {
      assert PartWF(w, j) && PartOk(w, j);
      PopPart(w, i, j);
    }
    PopShape(w, i);
    hide PartOk, HandleOk, PartWF;
    forall c | 0 <= c < |r.coros| ensures CoroOk(r, c) { assert CoroOk(w, c); }
  }

  lemma PopLast(w: World, i: nat, g: nat)
    requires Core(w) && Logs(w) && i < |w.parts| && w.parts[i].place.InQueue? && PartWF(w, i)
    ensures LastTaken(Pop(w, i).parts, Pop(w, i).log, g) ==
      if w.parts[i].handler == Some(g) then Some(i) else LastTaken(w.parts, w.log, g)
  {
    PopShape(w, i);
    TookBelow(w);
    var r := Pop(w, i);
    hide Core, Logs, Pop;
    forall k | 0 <= k < |w.log| && w.log[k].Took?
      ensures r.parts[w.log[k].i].handler == w.parts[w.log[k].i].handler
    {
      assert Kept(w.parts[w.log[k].i], r.parts[w.log[k].i]);
    }
    LastTakenSame(w.parts, r.parts, w.log, w.log, g);
    LastTakenMore(r.parts, w.log, r.log[|w.log|], g);
  }

  /** A composition other than the one whose handler takes the token. */
  lemma PopOther(w: World, i: nat, g: nat)
    requires Core(w) && Logs(w) && i < |w.parts| && w.parts[i].place.InQueue? && PartWF(w, i)
    requires g < |w.parts| && w.parts[g].kind.Composed? && GroupOk(w, g) && w.parts[i].handler != Some(g)
    ensures |Pop(w, i).parts| == |w.parts| && Pop(w, i).parts[g].kind.Composed? && GroupOk(Pop(w, i), g)
  {
    PopShape(w, i);
    PopLast(w, i, g);
    var r := Pop(w, i);
    hide Core, Logs, Pop, GroupOk;
    forall c | 0 <= c < |w.parts| ensures SameChild(w.parts[c], r.parts[c], g) {
      assert Kept(w.parts[c], r.parts[c]);
    }
    GroupKept(w, r, g);
  }

  /** The composition whose handler takes the token. */
  lemma PopParent(w: World, i: nat, g: nat)
    requires Core(w) && Logs(w) && i < |w.parts| && w.parts[i].place.InQueue? && PartWF(w, i)
    requires g < |w.parts| && w.parts[g].kind.Composed? && GroupOk(w, g) && w.parts[i].handler == Some(g)
    ensures |Pop(w, i).parts| == |w.parts| && Pop(w, i).parts[g].kind.Composed? && GroupOk(Pop(w, i), g)
  {
    PopShape(w, i);
    PopLast(w, i, g);
    assert PartOk(w, i) && PartWF(w, g);
    var r := Pop(w, i);
    hide Core, Logs, Pop;
    assert Children(r.parts, g) == Children(w.parts, g) by {
      forall c | 0 <= c < |w.parts| ensures r.parts[c].parent == w.parts[c].parent {
        assert Kept(w.parts[c], r.parts[c]);
      }
    }
    assert Pending(r.parts, g) == Pending(w.parts, g) - {i} && i in Pending(w.parts, g) by {
      forall c | 0 <= c < |w.parts| && c != i ensures IsPending(r.parts[c], g) <==> IsPending(w.parts[c], g) {
        assert Kept(w.parts[c], r.parts[c]);
      }
    }
    PopFires(w, i, g, r);
  }

  /** The arithmetic of the handler: its output token leaves exactly when its condition is
      met by a child without an exception. */
  lemma PopFires(w: World, i: nat, g: nat, r: World)
    requires g < i < |w.parts| == |r.parts| && w.parts[g].kind.Composed? && GroupOk(w, g) && Suspended(w.parts[g])
    requires w.parts[i].handler == Some(g) == w.parts[i].parent && w.parts[i].place.InQueue?
    requires i in Pending(w.parts, g) && Pending(r.parts, g) == Pending(w.parts, g) - {i}
    requires Children(r.parts, g) == Children(w.parts, g)
    requires r.parts[i] == w.parts[i].(place := Taken) && LastTaken(r.parts, r.log, g) == Some(i)
    requires forall c | 0 <= c < |w.parts| && c != i && c != g :: r.parts[c] == w.parts[c]
    requires r.parts[g] == Count(w.parts[g], w.parts[i]) && w.parts[g].handler != Some(g)
    ensures GroupOk(r, g)
  {
    if Fired(w, g) && w.parts[g].kind.cond.AnyOf? {
      var c :| 0 <= c < |w.parts| && HandledClean(w.parts[c], g);
      assert HandledClean(r.parts[c], g);
    }
    if w.parts[i].error.None? {
      assert HandledClean(r.parts[i], g);
    } else if c :| 0 <= c < |r.parts| && HandledClean(r.parts[c], g) {
      assert HandledClean(w.parts[c], g);
    }
  }

  lemma PopGroups(w: World, i: nat)
    requires Core(w) && Groups(w) && Logs(w) && i < |w.parts| && w.parts[i].place.InQueue? && PartWF(w, i)
    ensures Groups(Pop(w, i))
  {
    PopShape(w, i);
    var r := Pop(w, i);
    hide Pop, GroupOk, Core, Logs;
    forall g | 0 <= g < |r.parts| && r.parts[g].kind.Composed? ensures GroupOk(r, g) {
      assert Kept(w.parts[g], r.parts[g]) && GroupOk(w, g);
      if w.parts[i].handler == Some(g) { PopParent(w, i, g); } else { PopOther(w, i, g); }
    }
  }

  /** Unless a bare exception token is queued, tokens are taken at just their time. */
  lemma PopClock(w: World, i: nat)
    requires Times(w) && Orderly(w) && WF(w) && IsNext(w, i)
    ensures Pop(w, i).now == w.parts[i].time
    ensures forall j | 0 <= j < |w.parts| && w.parts[j].place.InQueue? :: w.parts[i].time <= w.parts[j].time
  {
    assert TimeOk(w, i);
  }

  lemma PopTime(w: World, i: nat, j: nat)
    requires Core(w) && Groups(w) && Times(w) && Orderly(w) && IsNext(w, i) && PartWF(w, i)
    requires j < |w.parts| && TimeOk(w, j)
    ensures |Pop(w, i).parts| == |w.parts| && TimeOk(Pop(w, i), j)
  {
    PopShape(w, i);
    PopClock(w, i);
    var r := Pop(w, i);
    assert Kept(w.parts[j], r.parts[j]);
    assert w.now <= r.now;
    if r.parts[j].kind.Composed? && HasLeft(r.parts[j]) {
      if w.parts[i].handler == Some(j) {
        assert GroupOk(w, j) && PartOk(w, i);
        PopTimeParent(w, i, j);
      } else {
        assert HasLeft(w.parts[j]);
        var c: nat :| Firing(w, j, c);
        hide Pop, Core, Groups, Times, IsNext;
        forall a | 0 <= a < |w.parts| && Handled(w.parts[a], j)
          ensures Handled(r.parts[a], j) && r.parts[a].time == w.parts[a].time && r.parts[a].error == w.parts[a].error
        {
          assert Kept(w.parts[a], r.parts[a]);
        }
        FiringKept(w, r, j, c);
      }
    }
  }

  lemma PopTimeParent(w: World, i: nat, g: nat)
    requires Core(w) && Times(w) && Orderly(w) && IsNext(w, i) && PartWF(w, i)
    requires g < |w.parts| && w.parts[g].kind.Composed? && GroupOk(w, g) && w.parts[i].handler == Some(g)
    requires Suspended(w.parts[g])
    requires |Pop(w, i).parts| == |w.parts| && Pop(w, i).parts[g].kind.Composed? && HasLeft(Pop(w, i).parts[g])
    ensures exists c: nat :: Firing(Pop(w, i), g, c)
  {
    PopShape(w, i);
    PopClock(w, i);
    var r := Pop(w, i);
    assert TimeOk(w, g);
    assert i in Pending(w.parts, g);
    forall a | 0 <= a < |w.parts| && a != i
      ensures Handled(r.parts[a], g) <==> Handled(w.parts[a], g)
      ensures Handled(w.parts[a], g) ==> r.parts[a] == w.parts[a] && w.parts[a].time <= w.now
    {
      assert Kept(w.parts[a], r.parts[a]) && TimeOk(w, a) && PartWF(w, a);
    }
    hide Pop, Core, Times, IsNext;
    if HasLeft(w.parts[g]) {
      assert w.parts[g].kind.cond.AnyOf?;
      var c: nat :| Firing(w, g, c);
      assert TimeOk(w, c);
      assert Firing(r, g, c);
    } else {
      assert Firing(r, g, i);
    }
  }

  lemma PopTimes(w: World, i: nat)
    requires Core(w) && Groups(w) && Times(w) && IsNext(w, i) && PartWF(w, i)
    ensures Times(Pop(w, i))
  {
    var r := Pop(w, i);
    PopExtends(w, i);
    PopShape(w, i);
    if Orderly(r) {
      OrderlyBefore(w, r);
      hide Pop, Core, Groups, TimeOk, Extends;
      forall j | 0 <= j < |r.parts| ensures TimeOk(r, j) {
        assert TimeOk(w, j);
        PopTime(w, i, j);
      }
    }
  }

  lemma PopWays(w: World, i: nat, p: nat)
    requires Ways(w) && WF(w) && i < |w.parts| && w.parts[i].place.InQueue? && PartWF(w, i) && p < |w.waits|
    ensures |Pop(w, i).waits| == |w.waits|
    ensures Resumed(w.parts[i]) != Some(p) ==> WayOk(Pop(w, i), p)
    ensures Resumed(w.parts[i]) == Some(p) ==>
      var r := Pop(w, i); WayOk(r.(waits := r.waits[p := None]), p)
  {
    PopShape(w, i);
    var r := Pop(w, i);
    assert WayOk(w, p);
    assert r.waits == w.waits;
    hide Pop, WF;
    forall j: nat ensures Waker(r, j, p) <==> Waker(w, j, p) && j != i {
      if j < |w.parts| { assert Kept(w.parts[j], r.parts[j]); }
    }
    forall j | 0 <= j < |r.parts| && Refused(Some(p)) !in w.log ensures Linked(r.parts[j], p) {
      assert Linked(w.parts[j], p) && Kept(w.parts[j], r.parts[j]);
    }
    assert Waker(w, i, p) <==> Resumed(w.parts[i]) == Some(p);
    assert Refused(Some(p)) in r.log <==> Refused(Some(p)) in w.log;
  }

  lemma PopLogs(w: World, i: nat)
    requires Core(w) && Times(w) && Logs(w) && IsNext(w, i) && PartWF(w, i)
    ensures Logs(Pop(w, i))
  {
    var r := Pop(w, i);
    PopTook(w, i);
    PopExtends(w, i);
    LogsKept(w, r);
    hide Core, Times, Pop, TookOk, WokeOk, Extends, IsNext;
    forall k | 0 <= k < |r.log| ensures LogOk(r, k) {}
  }

  /** The handler or the process gets the token: everything is kept. */
  lemma TakeOk(w: World, i: nat)
    requires Inv(w) && Enabled(w, Takes(i))
    ensures Inv(Take(w, i))
  {
    var r, p := Pop(w, i), Resumed(w.parts[i]);
    PopCore(w, i);
    PopGroups(w, i);
    PopTimes(w, i);
    PopLogs(w, i);
    assert r.waits == w.waits && |r.parts| == |w.parts|;
    assert p.Some? ==> p.value < |w.waits| && w.waits[p.value].Some? && w.waits[p.value].value < |w.parts|;
    hide Pop, Core, Groups, Times, Logs, WayOk, IsNext;
    forall q | 0 <= q < |w.waits| && p != Some(q) ensures WayOk(r, q) { PopWays(w, i, q); }
    if p.Some? {
      PopWays(w, i, p.value);
      ResumeOk(r, p.value, w.waits[p.value].value);
    }
  }
}
