/** What every action on compositions keeps: whose token a handle holds, what a handler
    has counted, when tokens are due, and what processes have seen. */
module CompositionInvariant {
  import opened Options
  import opened AwaitAlgebra
  import opened CompositionMachine
  import K = KernelState

  // ----- what the history tells -----

  predicate Touches(x: Happening, h: nat) {
    match x
    case Registered(g) => g == h
    case Visited(g, _) => g == h
    case Woke(_, _, visited) => h in visited
    case _ => false
  }

  /** A handle holds a token if an await has suspended through it, and no `await_resume`
      has visited it since. */
  predicate HoldsToken(log: seq<Happening>, h: nat) {
    if log == [] then false
    else
      var x := log[|log| - 1];
      if Touches(x, h) then x.Registered? else HoldsToken(log[..|log| - 1], h)
  }

  ghost predicate HasThrown(log: seq<Happening>, c: nat) {
    exists e :: Ended(c, Threw(e)) in log
  }

  /** The child whose token the handler of `g` took last. */
  function LastTaken(parts: seq<Part>, log: seq<Happening>, g: nat): Option<nat> {
    if log == [] then None
    else
      var x := log[|log| - 1];
      if x.Took? && x.i < |parts| && parts[x.i].handler == Some(g) then Some(x.i)
      else LastTaken(parts, log[..|log| - 1], g)
  }

  // ----- handles, coroutines and tokens -----

  predicate Suspended(x: Part) {
    x.place.Held? || x.place.InQueue? || x.place.Taken?
  }

  /** The token of a coroutine waits for its end, and then carries its exception. */
  predicate PartOk(w: World, i: nat)
    requires i < |w.parts| && PartWF(w, i)
  {
    var x := w.parts[i];
    && (Suspended(x) && x.parent.Some? ==> Suspended(w.parts[x.parent.value]))
    && (!x.kind.Through? || !Suspended(x) ==> x.error.None?)
    && (x.kind.Timed? ==> !x.place.Held?)
    && (x.kind.Through? && Suspended(x) ==> TokenOk(w, x, w.handles[x.kind.h].coro))
  }

  predicate TokenOk(w: World, x: Part, c: nat) {
    c < |w.coros| && match w.coros[c].done
                     case None => x.place.Held? && x.error.None?
                     case Some(o) => !x.place.Held? && x.error == ErrorOf(o)
  }

  ghost predicate CoroOk(w: World, c: nat)
    requires c < |w.coros|
  {
    forall o :: Ended(c, o) in w.log <==> w.coros[c].done == Some(o)
  }

  predicate HandleOk(w: World, h: nat)
    requires h < |w.handles|
  {
    var t := w.handles[h].token;
    && (t.Some? ==> t.value < |w.parts| && w.parts[t.value].kind == Through(h) && Suspended(w.parts[t.value]))
    && (t.Some? <==> HoldsToken(w.log, h))
  }

  ghost predicate Core(w: World) {
    && WF(w)
    && (forall i | 0 <= i < |w.parts| :: PartWF(w, i) && PartOk(w, i))
    && (forall c | 0 <= c < |w.coros| :: CoroOk(w, c))
    && (forall h | 0 <= h < |w.handles| :: HandleOk(w, h))
  }

  // ----- handlers -----

  /** The handler of `g` has taken this token. */
  predicate Handled(x: Part, g: nat) {
    x.place.Taken? && x.handler == Some(g)
  }

  predicate HandledClean(x: Part, g: nat) {
    Handled(x, g) && x.error.None?
  }

  predicate IsPending(x: Part, g: nat) {
    x.parent == Some(g) && !x.place.Idle? && !Handled(x, g)
  }

  ghost function Children(parts: seq<Part>, g: nat): set<nat> {
    set i: nat | i < |parts| && parts[i].parent == Some(g)
  }

  /** The children of `g` whose tokens its handler still counts. */
  ghost function Pending(parts: seq<Part>, g: nat): set<nat> {
    set i: nat | i < |parts| && IsPending(parts[i], g)
  }

  predicate HasLeft(x: Part) {
    x.place.InQueue? || x.place.Taken?
  }

  /** When the output token of a composition has left its handler. */
  ghost predicate Fired(w: World, g: nat)
    requires g < |w.parts| && w.parts[g].kind.Composed?
  {
    match w.parts[g].kind.cond
    case AnyOf => exists i :: 0 <= i < |w.parts| && HandledClean(w.parts[i], g)
    case AllOf =>
      var last := LastTaken(w.parts, w.log, g);
      Pending(w.parts, g) == {} && last.Some? && last.value < |w.parts| && HandledClean(w.parts[last.value], g)
  }

  ghost predicate GroupOk(w: World, g: nat)
    requires g < |w.parts| && w.parts[g].kind.Composed?
  {
    var x := w.parts[g];
    !x.place.Idle? ==>
      && x.kind.remaining == |Pending(w.parts, g)| <= x.kind.total == |Children(w.parts, g)|
      && (HasLeft(x) <==> Fired(w, g))
  }

  ghost predicate Groups(w: World) {
    forall g | 0 <= g < |w.parts| && w.parts[g].kind.Composed? :: GroupOk(w, g)
  }

  // ----- times -----

  /** No process that was bound from outside, or by `async`, has thrown. */
  ghost predicate Orderly(w: World) {
    forall i | 0 <= i < |w.parts| :: !IsBare(w.parts[i])
  }

  /** Child `i` has made composition `g` fire. */
  ghost predicate Firing(w: World, g: nat, i: nat)
    requires g < |w.parts| && w.parts[g].kind.Composed?
  {
    && i < |w.parts| && HandledClean(w.parts[i], g)
    && w.parts[g].time == w.parts[g].latency + w.parts[i].time
    && forall j | 0 <= j < |w.parts| && Handled(w.parts[j], g) ::
         match w.parts[g].kind.cond
         case AnyOf => w.parts[j].error.None? ==> w.parts[i].time <= w.parts[j].time
         case AllOf => w.parts[j].time <= w.parts[i].time
  }

  ghost predicate TimeOk(w: World, i: nat)
    requires i < |w.parts|
  {
    var x := w.parts[i];
    && (x.place.InQueue? ==> w.now <= x.time)
    && (x.place.Taken? ==> x.time <= w.now)
    && (x.kind.Composed? && HasLeft(x) ==> exists c: nat :: Firing(w, i, c))
  }

  ghost predicate Times(w: World) {
    Orderly(w) ==> forall i | 0 <= i < |w.parts| :: TimeOk(w, i)
  }

  // ----- what has been seen -----

  /** By the history up to `k`, handle `h` holds a token whose coroutine has thrown. */
  ghost predicate Carries(w: World, k: nat, h: nat)
    requires k <= |w.log|
  {
    h < |w.handles| && HoldsToken(w.log[..k], h) && HasThrown(w.log[..k], w.handles[h].coro)
  }

  /** The await with root `r` reaches node `j` at `k`, and meets exception `e` there. */
  ghost predicate Meets(w: World, k: nat, r: nat, j: nat, e: int)
    requires k <= |w.log|
  {
    && LeafOf(w.parts, j, r) && w.parts[j].kind.h < |w.handles|
    && HoldsToken(w.log[..k], w.parts[j].kind.h)
    && Ended(w.handles[w.parts[j].kind.h].coro, Threw(e)) in w.log[..k]
    && forall i | 0 <= i < j && LeafOf(w.parts, i, r) :: !Carries(w, k, w.parts[i].kind.h)
  }

  /** `visited` are the handles of the await with root `r`, in nodes below `b`. */
  ghost predicate VisitedBelow(parts: seq<Part>, visited: set<nat>, r: nat, b: nat) {
    forall h :: h in visited <==> exists j: nat :: j < b && LeafOf(parts, j, r) && parts[j].kind.h == h
  }

  ghost predicate WokeOk(w: World, k: nat)
    requires k < |w.log| && w.log[k].Woke?
  {
    var r := w.log[k].root;
    r < |w.parts| && match w.log[k].seen
                     case Normal =>
                       && (forall j: nat | LeafOf(w.parts, j, r) :: !Carries(w, k, w.parts[j].kind.h))
                       && VisitedBelow(w.parts, w.log[k].visited, r, |w.parts|)
                     case Rethrown(e) =>
                       exists j: nat :: Meets(w, k, r, j, e) && VisitedBelow(w.parts, w.log[k].visited, r, j + 1)
  }

  ghost predicate TookOk(w: World, k: nat)
    requires k < |w.log| && w.log[k].Took?
  {
    var i, escaped := w.log[k].i, w.log[k].escaped;
    && i < |w.parts| && PartWF(w, i) && w.parts[i].place.Taken?
    && (escaped.Some? <==> Reports(w.parts[i]) && Throws(w, k, i))
    && (escaped.Some? ==> ThrownBy(w, k, i, escaped.value))
    && (Orderly(w) ==> w.log[k].at == w.parts[i].time)
  }

  /** By `k` the coroutine for which token `i` stands has thrown. */
  ghost predicate Throws(w: World, k: nat, i: nat)
    requires k <= |w.log| && i < |w.parts|
  {
    var x := w.parts[i].kind;
    x.Through? && x.h < |w.handles| && HasThrown(w.log[..k], w.handles[x.h].coro)
  }

  ghost predicate ThrownBy(w: World, k: nat, i: nat, e: int)
    requires k <= |w.log| && i < |w.parts|
  {
    var x := w.parts[i].kind;
    x.Through? && x.h < |w.handles| && Ended(w.handles[x.h].coro, Threw(e)) in w.log[..k]
  }

  ghost predicate LogOk(w: World, k: nat)
    requires k < |w.log|
  {
    (w.log[k].Woke? ==> WokeOk(w, k)) && (w.log[k].Took? ==> TookOk(w, k))
  }

  ghost predicate Logs(w: World) {
    forall k | 0 <= k < |w.log| :: LogOk(w, k)
  }

  // ----- who is resumed -----

  /** A token that will resume `p`. */
  predicate Waker(w: World, i: nat, p: nat) {
    i < |w.parts| && Resumed(w.parts[i]) == Some(p) && (w.parts[i].place.Held? || w.parts[i].place.InQueue?)
  }

  predicate Linked(x: Part, p: nat) {
    x.proc == Some(p) && x.parent.Some? ==> x.handler == x.parent
  }

  ghost predicate WayOk(w: World, p: nat)
    requires p < |w.waits|
  {
    Refused(Some(p)) !in w.log ==>
      && (forall i | 0 <= i < |w.parts| :: Linked(w.parts[i], p))
      && (forall i: nat :: Waker(w, i, p) <==> w.waits[p] == Some(i))
  }

  ghost predicate Ways(w: World) {
    && (forall p | 0 <= p < |w.waits| :: WayOk(w, p))
    && (forall p | 0 <= p < |w.waits| && w.waits[p].Some? :: w.waits[p].value < |w.parts|)
  }

  ghost predicate Inv(w: World) {
    Core(w) && Groups(w) && Times(w) && Logs(w) && Ways(w)
  }

  // ----- the history grows -----

  lemma HoldsMore(log: seq<Happening>, x: Happening, h: nat)
    ensures HoldsToken(log + [x], h) <==> if Touches(x, h) then x.Registered? else HoldsToken(log, h)
  {
    assert (log + [x])[..|log|] == log;
  }

  lemma LastTakenMore(parts: seq<Part>, log: seq<Happening>, x: Happening, g: nat)
    ensures LastTaken(parts, log + [x], g) ==
      if x.Took? && x.i < |parts| && parts[x.i].handler == Some(g) then Some(x.i) else LastTaken(parts, log, g)
  {
    assert (log + [x])[..|log|] == log;
  }

  /** Only tokens that have been taken matter. */
  lemma {:induction false} LastTakenSame(a: seq<Part>, b: seq<Part>, log: seq<Happening>, log': seq<Happening>, g: nat)
    requires |a| <= |b| && log <= log'
    requires forall k | 0 <= k < |log| && log[k].Took? :: log[k].i < |a| && a[log[k].i].handler == b[log[k].i].handler
    requires forall k | |log| <= k < |log'| :: !log'[k].Took?
    ensures LastTaken(b, log', g) == LastTaken(a, log, g)
    decreases |log'|
  {
    if log' != [] {
      var m := |log'| - 1;
      if |log| == |log'| {
        LastTakenSame(a, b, log[..m], log'[..m], g);
      } else {
        LastTakenSame(a, b, log, log'[..m], g);
      }
    }
  }

  lemma {:induction false} LastIsHandled(parts: seq<Part>, log: seq<Happening>, g: nat)
    ensures var last := LastTaken(parts, log, g);
      last.Some? ==> last.value < |parts| && parts[last.value].handler == Some(g)
  {
    if log != [] {
      LastIsHandled(parts, log[..|log| - 1], g);
    }
  }

  predicate SameKind(x: Kind, y: Kind) {
    y == if x.Composed? && y.Composed? then x.(remaining := y.remaining) else x
  }

  /** What of a node never changes, and what of its token when that has been taken. */
  predicate Kept(x: Part, y: Part) {
    && y.root == x.root && y.parent == x.parent && y.handler == x.handler && y.proc == x.proc
    && SameKind(x.kind, y.kind) && y.latency == x.latency
    && (x.error.Some? ==> y.error == x.error)
    && (x.place.Taken? ==> y.place.Taken? && y.time == x.time && y.error == x.error)
  }

  /** `r` is `w` some time later. */
  ghost predicate Extends(w: World, r: World) {
    && |w.parts| <= |r.parts| && |r.handles| == |w.handles| && |r.coros| == |w.coros| && |r.waits| == |w.waits|
    && w.log <= r.log
    && (forall i | 0 <= i < |w.parts| :: Kept(w.parts[i], r.parts[i]))
    && (forall i | |w.parts| <= i < |r.parts| :: r.parts[i].root >= |w.parts|)
    && (forall h | 0 <= h < |w.handles| :: r.handles[h].coro == w.handles[h].coro)
    && WF(r)
  }

  lemma OrderlyBefore(w: World, r: World)
    requires Extends(w, r) && Orderly(r)
    ensures Orderly(w)
  {
    forall i | 0 <= i < |w.parts| ensures !IsBare(w.parts[i]) {
      assert Kept(w.parts[i], r.parts[i]) && !IsBare(r.parts[i]);
    }
  }

  lemma LeavesSame(w: World, r: World, j: nat, root: nat)
    requires Extends(w, r) && root < |w.parts|
    ensures LeafOf(r.parts, j, root) <==> LeafOf(w.parts, j, root)
    ensures LeafOf(w.parts, j, root) ==> r.parts[j].kind == w.parts[j].kind
  {
    if j < |w.parts| {
      assert Kept(w.parts[j], r.parts[j]);
    }
  }

  lemma WokeKept(w: World, r: World, k: nat)
    requires Extends(w, r) && k < |w.log| && w.log[k].Woke? && WokeOk(w, k)
    ensures r.log[k] == w.log[k] && WokeOk(r, k)
  {
    assert r.log[..k] == w.log[..k];
    var root, visited := w.log[k].root, w.log[k].visited;
    forall j: nat
      ensures LeafOf(r.parts, j, root) <==> LeafOf(w.parts, j, root)
      ensures LeafOf(w.parts, j, root) ==> r.parts[j].kind == w.parts[j].kind
    {
      LeavesSame(w, r, j, root);
    }
    forall h: nat ensures Carries(r, k, h) <==> Carries(w, k, h) {}
    if w.log[k].seen.Rethrown? {
      var e := w.log[k].seen.e;
      var j: nat :| Meets(w, k, root, j, e) && VisitedBelow(w.parts, visited, root, j + 1);
      assert Meets(r, k, root, j, e);
      VisitedKept(w, r, visited, root, j + 1, j + 1);
    } else {
      VisitedKept(w, r, visited, root, |w.parts|, |r.parts|);
    }
  }

  lemma VisitedKept(w: World, r: World, visited: set<nat>, root: nat, a: nat, b: nat)
    requires Extends(w, r) && root < |w.parts| && VisitedBelow(w.parts, visited, root, a)
    requires a == b || (a == |w.parts| && b == |r.parts|)
    ensures VisitedBelow(r.parts, visited, root, b)
  {
    hide Extends;
    forall j: nat
      ensures LeafOf(r.parts, j, root) <==> LeafOf(w.parts, j, root)
      ensures LeafOf(w.parts, j, root) ==> r.parts[j].kind == w.parts[j].kind
    {
      LeavesSame(w, r, j, root);
    }
    forall h ensures h in visited <==> exists j: nat :: j < b && LeafOf(r.parts, j, root) && r.parts[j].kind.h == h {
      if j: nat :| j < b && LeafOf(r.parts, j, root) && r.parts[j].kind.h == h {
        assert LeafOf(w.parts, j, root) && w.parts[j].kind.h == h;
      }
      if j: nat :| j < a && LeafOf(w.parts, j, root) && w.parts[j].kind.h == h {
        assert LeafOf(r.parts, j, root) && r.parts[j].kind.h == h;
      }
    }
  }

  lemma TookKept(w: World, r: World, k: nat)
    requires Extends(w, r) && k < |w.log| && w.log[k].Took? && TookOk(w, k)
    ensures r.log[k] == w.log[k] && TookOk(r, k)
  {
    assert r.log[..k] == w.log[..k];
    var i := w.log[k].i;
    assert Kept(w.parts[i], r.parts[i]) && PartWF(r, i);
    if Orderly(r) { OrderlyBefore(w, r); }
  }

  lemma LogsKept(w: World, r: World)
    requires Logs(w) && Extends(w, r)
    ensures forall k | 0 <= k < |w.log| :: LogOk(r, k)
  {
    assert w.log <= r.log;
    hide WokeOk, TookOk, Extends;
    forall k | 0 <= k < |w.log| ensures LogOk(r, k) {
      assert LogOk(w, k);
      assert r.log[k] == w.log[k];
      if w.log[k].Woke? { WokeKept(w, r, k); }
      if w.log[k].Took? { TookKept(w, r, k); }
    }
  }
}
