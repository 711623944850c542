/** Which tokens an await makes, with which priorities, and what becomes of them. */
module KernelTokens {
  import opened Options
  import opened Priorities
  import opened AwaitAlgebra
  import opened KernelState
  import opened KernelInvariant
  import opened KernelTheorems
  import opened TokenOrder

  // ----- priorities on the way up an expression -----

  /** `prio` is the last priority on `way` that is given, or, if none is, it is `base`. */
  ghost predicate Nearest(way: seq<int>, base: int, prio: int) {
    || (prio == base && forall j | 0 <= j < |way| :: way[j] == INHERIT)
    || exists k | 0 <= k < |way| :: way[k] == prio != INHERIT && forall j | k < j < |way| :: way[j] == INHERIT
  }

  lemma NearestOne(way: seq<int>, base: int, prio: int, p: int)
    requires Nearest(way, base, prio)
    ensures Nearest(way + [p], base, Resolve(p, prio))
  {
    var w := way + [p];
    if p != INHERIT {
      assert w[|way|] == p;
    } else if k :| 0 <= k < |way| && way[k] == prio != INHERIT && forall j | k < j < |way| :: way[j] == INHERIT {
      assert w[k] == prio && forall j | k < j < |w| :: w[j] == INHERIT;
    }
  }

  /** There is one such priority. */
  lemma NearestUnique(way: seq<int>, base: int, a: int, b: int)
    requires Nearest(way, base, a) && Nearest(way, base, b)
    ensures a == b
  {
  }

  // ----- what binding an expression makes -----

  /** The processes that binding `e` starts. */
  function Starts(e: Await): nat
    decreases e, 1
  {
    match e
    case Compose(_, kids, _, _) => StartsAll(kids)
    case Sequential(_, _, _, _, _) => 1
    case _ => 0
  }

  function StartsAll(es: seq<Await>): nat
    decreases es, 0
  {
    if es == [] then 0 else Starts(es[0]) + StartsAll(es[1..])
  }

  /** Process `q` is about to start, by token `t`, and has the nearest priority given. */
  ghost predicate Started(s: State, q: nat, t: nat, body: seq<Await>, at: int, way: seq<int>, base: int) {
    && q < |s.procs| && s.procs[q].rest == body && !s.procs[q].complete && Nearest(way, base, s.procs[q].priority)
    && t < |s.tokens| && t in s.queue && s.tokens[t] == Token(at, s.procs[q].priority, Some(q), None, None)
  }

  /** `n` is the expression `e`, bound, `way` being the priorities above it and `base` that
      of the process that awaits it. Its processes have the numbers from `q` on, their
      start tokens those from `t` on. */
  ghost predicate Bound(s: State, e: Await, n: Node, way: seq<int>, base: int, q: nat, t: nat)
    decreases e, 1
  {
    var w := way + [e.prio];
    match e
    case Delay(d, _) => n.Timer? && n.relative && n.t == d && Nearest(w, base, n.prio)
    case Until(u, _) => n.Timer? && !n.relative && n.t == u && Nearest(w, base, n.prio)
    case Compose(cond, kids, latency, _) =>
      && n.Group? && n.cond == cond && n.latency == latency && Nearest(w, base, n.prio)
      && BoundAll(s, kids, n.kids, w, base, q, t)
    case Sequential(kids, start, ret, _, retPrio) =>
      n == Process(q, ret, retPrio) && Started(s, q, t, kids, s.now + start, w, base)
  }

  ghost predicate BoundAll(s: State, es: seq<Await>, ns: seq<Node>, way: seq<int>, base: int, q: nat, t: nat)
    decreases es, 0
  {
    && |ns| == |es|
    && (es == [] || (Bound(s, es[0], ns[0], way, base, q, t)
                     && BoundAll(s, es[1..], ns[1..], way, base, q + Starts(es[0]), t + Starts(es[0]))))
  }

  /** `s'` is `s` with more in it; tokens below `from` may have changed. */
  ghost predicate More(s: State, s': State, from: nat) {
    && s'.now == s.now && |s.tokens| <= |s'.tokens| && |s.procs| <= |s'.procs| && s.handlers <= s'.handlers
    && (forall t | from <= t < |s.tokens| :: s'.tokens[t] == s.tokens[t] && (t in s.queue ==> t in s'.queue))
    && (forall q | 0 <= q < |s.procs| :: SameProc(s.procs[q], s'.procs[q], from))
  }

  /** Of the completion tokens those from `from` on stay. */
  predicate SameProc(x: Proc, y: Proc, from: nat) {
    && y.priority == x.priority
    && forall i | 0 <= i < |x.completions| :: x.completions[i] >= from ==> x.completions[i] in y.completions
  }

  /** Processes that have been started stay as they are. */
  ghost predicate Unstarted(s: State, s': State, from: nat) {
    forall q | from <= q < |s.procs| && q < |s'.procs| ::
      s'.procs[q].rest == s.procs[q].rest && s'.procs[q].complete == s.procs[q].complete
  }

  lemma {:induction false} BoundKept(s: State, s': State, from: nat, first: nat, e: Await, n: Node, way: seq<int>,
                                     base: int, q: nat, t: nat)
    requires More(s, s', from) && Unstarted(s, s', first) && from <= t && first <= q
    requires Bound(s, e, n, way, base, q, t)
    ensures Bound(s', e, n, way, base, q, t)
    decreases e, 1
  {
    if e.Compose? {
      BoundAllKept(s, s', from, first, e.kids, n.kids, way + [e.prio], base, q, t);
    }
  }

  lemma {:induction false} BoundAllKept(s: State, s': State, from: nat, first: nat, es: seq<Await>, ns: seq<Node>,
                                        way: seq<int>, base: int, q: nat, t: nat)
    requires More(s, s', from) && Unstarted(s, s', first) && from <= t && first <= q
    requires BoundAll(s, es, ns, way, base, q, t)
    ensures BoundAll(s', es, ns, way, base, q, t)
    decreases es, 0
  {
    if es != [] {
      BoundKept(s, s', from, first, es[0], ns[0], way, base, q, t);
      BoundAllKept(s, s', from, first, es[1..], ns[1..], way, base, q + Starts(es[0]), t + Starts(es[0]));
    }
  }

  lemma {:induction false} BindMore(s: State, e: Await, prio: int)
    requires WF(s)
    ensures var r := Bind(s, e, prio).0;
      && More(s, r, 0) && Unstarted(s, r, 0) && r.procs[..|s.procs|] == s.procs
      && |r.procs| == |s.procs| + Starts(e) && |r.tokens| == |s.tokens| + Starts(e) && r.handlers == s.handlers
    decreases e, 1
  {
    if e.Compose? {
      hide More, Unstarted, WF, BindAll;
      BindAllMore(s, e.kids, Resolve(e.prio, prio));
    } else if e.Sequential? {
      hide More, Unstarted, BindProcess;
      StartMore(s, e.kids, e.start, Resolve(e.prio, prio));
    }
  }

  lemma StartMore(s: State, body: seq<Await>, start: nat, prio: int)
    requires WF(s)
    ensures var r := BindProcess(s, body, start, prio);
      && More(s, r, 0) && Unstarted(s, r, 0) && r.procs[..|s.procs|] == s.procs
      && |r.procs| == |s.procs| + 1 && |r.tokens| == |s.tokens| + 1 && r.handlers == s.handlers
  {
  }

  lemma {:induction false} BindAllMore(s: State, es: seq<Await>, prio: int)
    requires WF(s)
    ensures var r := BindAll(s, es, prio).0;
      && More(s, r, 0) && Unstarted(s, r, 0) && r.procs[..|s.procs|] == s.procs
      && |r.procs| == |s.procs| + StartsAll(es) && |r.tokens| == |s.tokens| + StartsAll(es)
      && r.handlers == s.handlers
    decreases es, 0
  {
    if es != [] {
      hide Bind;
      BindMore(s, es[0], prio);
      var s1 := Bind(s, es[0], prio).0;
      BindAllMore(s1, es[1..], prio);
      MoreTrans(s, s1, BindAll(s, es, prio).0);
    }
  }

  lemma MoreTrans(a: State, b: State, c: State)
    requires More(a, b, 0) && More(b, c, 0) && Unstarted(a, b, 0) && Unstarted(b, c, 0)
    requires b.procs[..|a.procs|] == a.procs && c.procs[..|b.procs|] == b.procs
    ensures More(a, c, 0) && Unstarted(a, c, 0) && c.procs[..|a.procs|] == a.procs
  {
    forall q | 0 <= q < |a.procs| ensures c.procs[q] == a.procs[q] {
      assert c.procs[q] == c.procs[..|b.procs|][q] && b.procs[q] == b.procs[..|a.procs|][q];
    }
  }

  /** Binding gives every node and every process the nearest priority. */
  lemma {:induction false} BindBound(s: State, e: Await, prio: int, way: seq<int>, base: int)
    requires WF(s) && Nearest(way, base, prio)
    ensures var (r, n) := Bind(s, e, prio); Bound(r, e, n, way, base, |s.procs|, |s.tokens|)
    decreases e, 1
  {
    NearestOne(way, base, prio, e.prio);
    if e.Compose? {
      BindAllBound(s, e.kids, Resolve(e.prio, prio), way + [e.prio], base);
    }
  }

  lemma {:induction false} BindAllBound(s: State, es: seq<Await>, prio: int, way: seq<int>, base: int)
    requires WF(s) && Nearest(way, base, prio)
    ensures var (r, ns) := BindAll(s, es, prio); BoundAll(r, es, ns, way, base, |s.procs|, |s.tokens|)
    decreases es, 1
  {
    hide Nearest, WF, Bind, Bound;
    if es != [] { BindRestBound(s, es, prio, way, base); }
  }

  lemma {:induction false} BindRestBound(s: State, es: seq<Await>, prio: int, way: seq<int>, base: int)
    requires WF(s) && Nearest(way, base, prio) && es != []
    ensures var (r, ns) := BindAll(s, es, prio); BoundAll(r, es, ns, way, base, |s.procs|, |s.tokens|)
    decreases es, 0
  {
    hide Bind, Nearest;
    var (s1, n) := Bind(s, es[0], prio);
    var (r, ns) := BindAll(s1, es[1..], prio);
    assert BindAll(s, es, prio) == (r, [n] + ns);
    hide BindAll, Bound, BoundAll, More, Unstarted, WF;
    BindBound(s, es[0], prio, way, base);
    BindMore(s, es[0], prio);
    BindAllBound(s1, es[1..], prio, way, base);
    BindAllMore(s1, es[1..], prio);
    BoundKept(s1, r, 0, 0, es[0], n, way, base, |s.procs|, |s.tokens|);
    BoundCons(r, es, n, ns, way, base, |s.procs|, |s.tokens|);
  }

  lemma BoundCons(s: State, es: seq<Await>, n: Node, ns: seq<Node>, way: seq<int>, base: int, q: nat, t: nat)
    requires es != [] && Bound(s, es[0], n, way, base, q, t)
    requires BoundAll(s, es[1..], ns, way, base, q + Starts(es[0]), t + Starts(es[0]))
    ensures BoundAll(s, es, [n] + ns, way, base, q, t)
  {
    hide Bound, Starts;
    assert ([n] + ns)[1..] == ns;
  }

  /** Asking for readiness changes no priority. */
  lemma {:induction false} PollBound(s: State, e: Await, n: Node, way: seq<int>, base: int, q: nat, t: nat)
    requires NodeIn(n, |s.procs|) && Bound(s, e, n, way, base, q, t)
    ensures Bound(s, e, Poll(s, n).0, way, base, q, t)
    decreases e, 1
  {
    if e.Compose? {
      PollAllBound(s, e.kids, n.kids, way + [e.prio], base, q, t);
    }
  }

  lemma {:induction false} PollAllBound(s: State, es: seq<Await>, ns: seq<Node>, way: seq<int>, base: int, q: nat,
                                        t: nat)
    requires (forall n | n in ns :: NodeIn(n, |s.procs|)) && BoundAll(s, es, ns, way, base, q, t)
    ensures BoundAll(s, es, PollAll(s, ns).0, way, base, q, t)
    decreases es, 0
  {
    if es != [] {
      PollBound(s, es[0], ns[0], way, base, q, t);
      PollAllBound(s, es[1..], ns[1..], way, base, q + Starts(es[0]), t + Starts(es[0]));
    }
  }

  // ----- what suspending on a node makes -----

  /** The tokens that suspending on `n` makes. */
  function Tokens(n: Node): nat
    requires Polled(n)
    decreases n, 1
  {
    if n.Group? then 1 + TokensAll(n.kids, n.ready) else 1
  }

  function TokensAll(ns: seq<Node>, ready: seq<bool>): nat
    requires |ready| == |ns| && forall n | n in ns :: Polled(n)
    decreases ns, 0
  {
    if ns == [] then 0 else (if ready[0] then 0 else Tokens(ns[0])) + TokensAll(ns[1..], ready[1..])
  }

  function Groups(n: Node): nat
    requires Polled(n)
    decreases n, 1
  {
    if n.Group? then 1 + GroupsAll(n.kids, n.ready) else 0
  }

  function GroupsAll(ns: seq<Node>, ready: seq<bool>): nat
    requires |ready| == |ns| && forall n | n in ns :: Polled(n)
    decreases ns, 0
  {
    if ns == [] then 0 else (if ready[0] then 0 else Groups(ns[0])) + GroupsAll(ns[1..], ready[1..])
  }

  /** Token `id` stands for node `n`, for which process `w` waits: it is due when the node
      says, or held by the process or the handler, has the node's priority, and goes to the
      handler of the composition above, if any. The tokens of the children that are not
      ready follow, in order, and so do the handlers. */
  ghost predicate Stands(s: State, n: Node, id: nat, hd: nat, above: Option<nat>, w: Option<nat>)
    requires Polled(n)
    decreases n, 1
  {
    && id < |s.tokens| && s.tokens[id].handler == above && s.tokens[id].coro == w && s.tokens[id].error.None?
    && match n
       case Timer(relative, t, prio) =>
         id in s.queue && s.tokens[id].time == (if relative then s.now + t else t) && s.tokens[id].priority == prio
       case Process(p, ret, retPrio) =>
         && p < |s.procs| && id in s.procs[p].completions && s.tokens[id].time == ret
         && Nearest([retPrio], s.procs[p].priority, s.tokens[id].priority)
       case Group(cond, kids, latency, prio, ready, remaining) =>
         && hd < |s.handlers| && s.handlers[hd] == Handler(cond, |kids|, remaining, Some(id))
         && s.tokens[id].time == latency && s.tokens[id].priority == prio
         && StandAll(s, kids, ready, id + 1, hd + 1, hd, w)
  }

  ghost predicate StandAll(s: State, ns: seq<Node>, ready: seq<bool>, id: nat, hd: nat, above: nat, w: Option<nat>)
    requires |ready| == |ns| && forall n | n in ns :: Polled(n)
    decreases ns, 0
  {
    if ns == [] then true
    else if ready[0] then StandAll(s, ns[1..], ready[1..], id, hd, above, w)
    else
      && Stands(s, ns[0], id, hd, Some(above), w)
      && StandAll(s, ns[1..], ready[1..], id + Tokens(ns[0]), hd + Groups(ns[0]), above, w)
  }

  lemma {:induction false} StandsKept(s: State, s': State, from: nat, n: Node, id: nat, hd: nat, above: Option<nat>,
                                      w: Option<nat>)
    requires Polled(n) && More(s, s', from) && from <= id && Stands(s, n, id, hd, above, w)
    ensures Stands(s', n, id, hd, above, w)
    decreases n, 1
  {
    if n.Group? {
      StandAllKept(s, s', from, n.kids, n.ready, id + 1, hd + 1, hd, w);
    }
  }

  lemma {:induction false} StandAllKept(s: State, s': State, from: nat, ns: seq<Node>, ready: seq<bool>, id: nat,
                                        hd: nat, above: nat, w: Option<nat>)
    requires |ready| == |ns| && (forall n | n in ns :: Polled(n)) && More(s, s', from) && from <= id
    requires StandAll(s, ns, ready, id, hd, above, w)
    ensures StandAll(s', ns, ready, id, hd, above, w)
    decreases ns, 0
  {
    if ns != [] {
      if ready[0] {
        StandAllKept(s, s', from, ns[1..], ready[1..], id, hd, above, w);
      } else {
        StandsKept(s, s', from, ns[0], id, hd, Some(above), w);
        StandAllKept(s, s', from, ns[1..], ready[1..], id + Tokens(ns[0]), hd + Groups(ns[0]), above, w);
      }
    }
  }

  /** The token is given the handler of the composition above. */
  lemma {:induction false} StandsAttached(s: State, n: Node, id: nat, hd: nat, h: nat, w: Option<nat>)
    requires WF(s) && Polled(n) && Stands(s, n, id, hd, None, w) && h < |s.handlers|
    requires TokenWF(s.tokens[id].(handler := Some(h)), |s.handlers|, |s.procs|)
    ensures Stands(SetToken(s, id, s.tokens[id].(handler := Some(h))), n, id, hd, Some(h), w)
  {
    if n.Group? {
      var r := SetToken(s, id, s.tokens[id].(handler := Some(h)));
      assert More(s, r, id + 1);
      StandAllKept(s, r, id + 1, n.kids, n.ready, id + 1, hd + 1, hd, w);
    }
  }

  /** A composition, before its children. */
  function Opened(s: State, n: Node, w: Option<nat>): (r: State)
    requires WF(s) && n.Group? && (w.Some? ==> w.value < |s.procs|)
    ensures WF(r) && |r.handlers| == |s.handlers| + 1 && r.procs == s.procs && r.now == s.now
  {
    NewHandler(Allocate(s, Token(n.latency, n.prio, w, None, None)),
               Handler(n.cond, |n.kids|, n.remaining, Some(|s.tokens|)))
  }

  lemma OpenedMore(s: State, n: Node, w: Option<nat>)
    requires WF(s) && n.Group? && (w.Some? ==> w.value < |s.procs|)
    ensures var r := Opened(s, n, w);
      && More(s, r, 0) && Unstarted(s, r, 0) && |r.tokens| == |s.tokens| + 1
      && r.tokens[|s.tokens|] == Token(n.latency, n.prio, w, None, None)
      && r.handlers[|s.handlers|] == Handler(n.cond, |n.kids|, n.remaining, Some(|s.tokens|))
  {
  }

  lemma LeafMore(s: State, n: Node, w: Option<nat>)
    requires WF(s) && NodeIn(n, |s.procs|) && Polled(n) && (w.Some? ==> w.value < |s.procs|) && !n.Group?
    ensures var r := Suspend(s, n, w).0;
      && More(s, r, 0) && Unstarted(s, r, 0) && |r.procs| == |s.procs|
      && |r.tokens| == |s.tokens| + 1 && r.handlers == s.handlers
  {
  }

  lemma {:induction false} SuspendMore(s: State, n: Node, w: Option<nat>)
    requires WF(s) && NodeIn(n, |s.procs|) && Polled(n) && (w.Some? ==> w.value < |s.procs|)
    ensures var r := Suspend(s, n, w).0;
      && More(s, r, 0) && Unstarted(s, r, 0) && |r.procs| == |s.procs|
      && |r.tokens| == |s.tokens| + Tokens(n) && |r.handlers| == |s.handlers| + Groups(n)
    decreases n, 1
  {
    if n.Group? {
      OpenedMore(s, n, w);
      var s2, r := Opened(s, n, w), Suspend(s, n, w).0;
      assert r == SuspendAll(s2, n.kids, n.ready, w, |s.handlers|);
      hide Opened, Suspend, WF;
      SuspendAllMore(s2, n.kids, n.ready, w, |s.handlers|);
      MoreSame(s, s2, r);
    } else {
      LeafMore(s, n, w);
    }
  }

  lemma MoreSame(a: State, b: State, c: State)
    requires More(a, b, 0) && More(b, c, 0) && Unstarted(a, b, 0) && Unstarted(b, c, 0)
    requires |b.procs| == |a.procs| && |c.procs| == |b.procs|
    ensures More(a, c, 0) && Unstarted(a, c, 0)
  {
    forall q | 0 <= q < |a.procs| ensures SameProc(a.procs[q], c.procs[q], 0) {
      assert SameProc(a.procs[q], b.procs[q], 0) && SameProc(b.procs[q], c.procs[q], 0);
    }
  }

  lemma {:induction false} SuspendAllMore(s: State, ns: seq<Node>, ready: seq<bool>, w: Option<nat>, h: nat)
    requires WF(s) && |ready| == |ns| && h < |s.handlers| && (w.Some? ==> w.value < |s.procs|)
    requires forall n | n in ns :: NodeIn(n, |s.procs|) && Polled(n)
    ensures var r := SuspendAll(s, ns, ready, w, h);
      && More(s, r, 0) && Unstarted(s, r, 0) && |r.procs| == |s.procs|
      && |r.tokens| == |s.tokens| + TokensAll(ns, ready) && |r.handlers| == |s.handlers| + GroupsAll(ns, ready)
    decreases ns, 0
  {
    if ns != [] {
      hide Suspend, NodeIn, Tokens, Groups;
      if ready[0] {
        hide WF;
        SuspendAllMore(s, ns[1..], ready[1..], w, h);
      } else {
        var s2 := SuspendOneMore(s, ns[0], w, h);
        var r := SuspendAll(s, ns, ready, w, h);
        assert r == SuspendAll(s2, ns[1..], ready[1..], w, h);
        hide SuspendAll, SetToken, WF, More, Unstarted;
        SuspendAllMore(s2, ns[1..], ready[1..], w, h);
        MoreSame(s, s2, r);
      }
    }
  }

  lemma {:induction false} SuspendOneMore(s: State, n: Node, w: Option<nat>, h: nat) returns (s2: State)
    requires WF(s) && h < |s.handlers| && (w.Some? ==> w.value < |s.procs|) && NodeIn(n, |s.procs|) && Polled(n)
    ensures var (s1, id) := Suspend(s, n, w);
      && TokenWF(s1.tokens[id].(handler := Some(h)), |s1.handlers|, |s1.procs|)
      && s2 == SetToken(s1, id, s1.tokens[id].(handler := Some(h)))
    ensures WF(s2) && More(s, s2, 0) && Unstarted(s, s2, 0) && |s2.procs| == |s.procs|
    ensures |s2.tokens| == |s.tokens| + Tokens(n) && |s2.handlers| == |s.handlers| + Groups(n)
    decreases n, 2
  {
    hide Suspend;
    SuspendMore(s, n, w);
    SuspendAdds(s, n, w);
    var (s1, id) := Suspend(s, n, w);
    assert TokenWF(s1.tokens[id], |s1.handlers|, |s1.procs|);
    s2 := SetToken(s1, id, s1.tokens[id].(handler := Some(h)));
    SetTokenMore(s, s1, id, s1.tokens[id].(handler := Some(h)));
  }

  lemma SetTokenMore(s: State, s1: State, id: nat, tk: Token)
    requires WF(s1) && More(s, s1, 0) && Unstarted(s, s1, 0) && |s.tokens| <= id < |s1.tokens|
    requires TokenWF(tk, |s1.handlers|, |s1.procs|)
    ensures More(s, SetToken(s1, id, tk), 0) && Unstarted(s, SetToken(s1, id, tk), 0)
  {
  }

  lemma LeafStands(s: State, n: Node, w: Option<nat>)
    requires WF(s) && NodeIn(n, |s.procs|) && Polled(n) && (w.Some? ==> w.value < |s.procs|) && !n.Group?
    ensures Stands(Suspend(s, n, w).0, n, |s.tokens|, |s.handlers|, None, w)
  {
    if n.Process? {
      NearestOne([], s.procs[n.proc].priority, s.procs[n.proc].priority, n.retPrio);
      assert [] + [n.retPrio] == [n.retPrio];
    }
    hide Nearest, NodeIn;
  }

  lemma GroupStands(s2: State, r: State, n: Node, id: nat, hd: nat, w: Option<nat>)
    requires n.Group? && Polled(n) && id < |s2.tokens| && hd < |s2.handlers| && More(s2, r, 0)
    requires s2.tokens[id] == Token(n.latency, n.prio, w, None, None)
    requires s2.handlers[hd] == Handler(n.cond, |n.kids|, n.remaining, Some(id))
    requires StandAll(r, n.kids, n.ready, id + 1, hd + 1, hd, w)
    ensures Stands(r, n, id, hd, None, w)
  {
    hide StandAll;
  }

  /** Suspending makes the tokens that stand for the nodes. */
  lemma {:induction false} SuspendStands(s: State, n: Node, w: Option<nat>)
    requires WF(s) && NodeIn(n, |s.procs|) && Polled(n) && (w.Some? ==> w.value < |s.procs|)
    ensures Stands(Suspend(s, n, w).0, n, |s.tokens|, |s.handlers|, None, w)
    decreases n, 1
  {
    if n.Group? {
      OpenedMore(s, n, w);
      var s2, r := Opened(s, n, w), Suspend(s, n, w).0;
      assert r == SuspendAll(s2, n.kids, n.ready, w, |s.handlers|);
      hide Opened, Suspend, WF, SuspendAll, StandAll, Unstarted, Stands, More, Tokens, Groups;
      SuspendAllStand(s2, n.kids, n.ready, w, |s.handlers|);
      SuspendAllMore(s2, n.kids, n.ready, w, |s.handlers|);
      GroupStands(s2, r, n, |s.tokens|, |s.handlers|, w);
    } else {
      LeafStands(s, n, w);
    }
  }

  lemma StandCons(s: State, r: State, ns: seq<Node>, ready: seq<bool>, id: nat, hd: nat, above: nat, w: Option<nat>)
    requires |ready| == |ns| > 0 && !ready[0] && forall n | n in ns :: Polled(n)
    requires Stands(s, ns[0], id, hd, Some(above), w) && More(s, r, 0)
    requires StandAll(r, ns[1..], ready[1..], id + Tokens(ns[0]), hd + Groups(ns[0]), above, w)
    ensures StandAll(r, ns, ready, id, hd, above, w)
  {
    hide Stands, Tokens, Groups;
    StandsKept(s, r, 0, ns[0], id, hd, Some(above), w);
  }

  /** The first child that is not ready. */
  lemma {:induction false} SuspendOneStands(s: State, n: Node, w: Option<nat>, h: nat) returns (s2: State)
    requires WF(s) && h < |s.handlers| && (w.Some? ==> w.value < |s.procs|) && NodeIn(n, |s.procs|) && Polled(n)
    ensures var (s1, id) := Suspend(s, n, w);
      && TokenWF(s1.tokens[id].(handler := Some(h)), |s1.handlers|, |s1.procs|)
      && s2 == SetToken(s1, id, s1.tokens[id].(handler := Some(h)))
    ensures WF(s2) && Stands(s2, n, |s.tokens|, |s.handlers|, Some(h), w)
    ensures |s2.tokens| == |s.tokens| + Tokens(n) && |s2.handlers| == |s.handlers| + Groups(n)
    ensures |s2.procs| == |s.procs|
    decreases n, 2
  {
    SuspendStands(s, n, w);
    SuspendMore(s, n, w);
    SuspendAdds(s, n, w);
    var (s1, id) := Suspend(s, n, w);
    assert TokenWF(s1.tokens[id], |s1.handlers|, |s1.procs|);
    s2 := SetToken(s1, id, s1.tokens[id].(handler := Some(h)));
    hide Suspend, More;
    StandsAttached(s1, n, id, |s.handlers|, h, w);
  }

  lemma {:induction false} SuspendAllStand(s: State, ns: seq<Node>, ready: seq<bool>, w: Option<nat>, h: nat)
    requires WF(s) && |ready| == |ns| && h < |s.handlers| && (w.Some? ==> w.value < |s.procs|)
    requires forall n | n in ns :: NodeIn(n, |s.procs|) && Polled(n)
    ensures StandAll(SuspendAll(s, ns, ready, w, h), ns, ready, |s.tokens|, |s.handlers|, h, w)
    decreases ns, 1
  {
    hide Suspend, WF, Stands, NodeIn;
    if ns != [] {
      if ready[0] {
        SuspendAllStand(s, ns[1..], ready[1..], w, h);
      } else {
        SuspendRestStand(s, ns, ready, w, h);
      }
    }
  }

  lemma {:induction false} SuspendRestStand(s: State, ns: seq<Node>, ready: seq<bool>, w: Option<nat>, h: nat)
    requires WF(s) && |ready| == |ns| && h < |s.handlers| && (w.Some? ==> w.value < |s.procs|)
    requires (forall n | n in ns :: NodeIn(n, |s.procs|) && Polled(n)) && ns != [] && !ready[0]
    ensures StandAll(SuspendAll(s, ns, ready, w, h), ns, ready, |s.tokens|, |s.handlers|, h, w)
    decreases ns, 0
  {
    var s2 := SuspendOneStands(s, ns[0], w, h);
    assert SuspendAll(s, ns, ready, w, h) == SuspendAll(s2, ns[1..], ready[1..], w, h);
    hide Suspend, SuspendAll, SetToken, WF, Stands, StandAll, Tokens, Groups, NodeIn;
    SuspendOthersStand(s2, ns, ready, |s.tokens|, |s.handlers|, w, h);
  }

  lemma {:induction false} SuspendOthersStand(s2: State, ns: seq<Node>, ready: seq<bool>, id: nat, hd: nat,
                                              w: Option<nat>, h: nat)
    requires WF(s2) && |ready| == |ns| && h < |s2.handlers| && (w.Some? ==> w.value < |s2.procs|)
    requires (forall n | n in ns :: NodeIn(n, |s2.procs|) && Polled(n)) && ns != [] && !ready[0]
    requires Stands(s2, ns[0], id, hd, Some(h), w)
    requires |s2.tokens| == id + Tokens(ns[0]) && |s2.handlers| == hd + Groups(ns[0])
    ensures StandAll(SuspendAll(s2, ns[1..], ready[1..], w, h), ns, ready, id, hd, h, w)
    decreases ns[1..], 2
  {
    hide Suspend, SuspendAll, SetToken, WF, Stands, StandAll, More, Unstarted, Tokens, Groups, NodeIn;
    SuspendAllStand(s2, ns[1..], ready[1..], w, h);
    SuspendAllMore(s2, ns[1..], ready[1..], w, h);
    StandCons(s2, SuspendAll(s2, ns[1..], ready[1..], w, h), ns, ready, id, hd, h, w);
  }

  // ----- a process that runs -----

  lemma {:induction false} StartsSplit(es: seq<Await>, k: nat)
    requires 0 < k <= |es|
    ensures StartsAll(es[..k]) == Starts(es[0]) + StartsAll(es[1..][..k - 1])
  {
    assert es[..k][1..] == es[1..][..k - 1];
  }

  lemma ReturnMore(s: State, p: nat, from: nat, first: nat)
    requires WF(s) && p < |s.procs| && p < first && forall c | c in s.procs[p].completions :: c < from
    ensures More(s, DoReturn(s, p), from) && Unstarted(s, DoReturn(s, p), first)
    ensures |DoReturn(s, p).procs| == |s.procs| && |DoReturn(s, p).tokens| == |s.tokens|
  {
    assert ProcWF(s.procs[p], |s.tokens|);
    forall t | from <= t < |s.tokens| ensures Land(s.tokens, s.procs[p].completions, s.now)[t] == s.tokens[t] {
      LandsOthers(s.tokens, s.procs[p].completions, s.now, t);
    }
    forall q | 0 <= q < |s.procs| ensures SameProc(s.procs[q], DoReturn(s, p).procs[q], from) {
      assert forall i | 0 <= i < |s.procs[p].completions| :: s.procs[p].completions[i] in s.procs[p].completions;
    }
  }

  lemma MoreJoin(a: State, b: State, c: State, from: nat, first: nat)
    requires More(a, b, from) && More(b, c, from) && Unstarted(a, b, first) && Unstarted(b, c, first)
    requires |a.procs| <= |b.procs|
    ensures More(a, c, from) && Unstarted(a, c, first)
  {
    forall q | 0 <= q < |a.procs| ensures SameProc(a.procs[q], c.procs[q], from) {
      assert SameProc(a.procs[q], b.procs[q], from) && SameProc(b.procs[q], c.procs[q], from);
    }
  }

  /** Taking an await off a process's list. */
  lemma NextMore(s: State, p: nat, from: nat, first: nat)
    requires WF(s) && p < |s.procs| && p < first && s.procs[p].rest != []
    requires ProcWF(s.procs[p].(rest := s.procs[p].rest[1..]), |s.tokens|)
    ensures var s1 := SetProc(s, p, s.procs[p].(rest := s.procs[p].rest[1..]));
      More(s, s1, from) && Unstarted(s, s1, first)
  {
  }

  lemma Weaker(s: State, r: State, from: nat, first: nat)
    requires More(s, r, 0) && Unstarted(s, r, 0)
    ensures More(s, r, from) && Unstarted(s, r, first)
  {
    forall q | 0 <= q < |s.procs| ensures SameProc(s.procs[q], r.procs[q], from) {
      assert SameProc(s.procs[q], r.procs[q], 0);
    }
  }

  lemma {:induction false} ResumeMore(s: State, p: nat, from: nat, first: nat)
    requires WF(s) && p < |s.procs| && p < first && forall c | c in s.procs[p].completions :: c < from
    ensures More(s, Resume(s, p), from) && Unstarted(s, Resume(s, p), first)
    decreases |s.procs[p].rest|
  {
    var proc, r := s.procs[p], Resume(s, p);
    assert ProcWF(proc, |s.tokens|);
    if proc.rest == [] {
      ReturnMore(s, p, from, first);
    } else {
      var s1 := SetProc(s, p, proc.(rest := proc.rest[1..]));
      NextMore(s, p, from, first);
      BindMore(s1, proc.rest[0], proc.priority);
      var (s2, bound) := Bind(s1, proc.rest[0], proc.priority);
      assert s2.procs[p] == s1.procs[p];
      Weaker(s1, s2, from, first);
      MoreJoin(s, s1, s2, from, first);
      var (node, ready) := Poll(s2, bound);
      hide More, Unstarted, WF;
      if ready {
        assert r == Resume(s2, p);
        ResumeMore(s2, p, from, first);
      } else {
        assert r == Suspend(s2, node, Some(p)).0;
        SuspendMore(s2, node, Some(p));
        Weaker(s2, r, from, first);
      }
      MoreCount(s, s1);
      MoreCount(s, s2);
      MoreJoin(s, s2, r, from, first);
    }
  }

  lemma MoreCount(s: State, s': State)
    ensures forall from :: More(s, s', from) ==> |s.procs| <= |s'.procs|
  {
  }

  /** Process `p` has gone through the awaits that `nodes` stand for; unless it has returned
      it is suspended on the last. Nothing else has been started or made. */
  ghost predicate Went(s: State, r: State, p: nat, nodes: seq<Node>)
    requires p < |s.procs|
  {
    var rest, k := s.procs[p].rest, |nodes|;
    && k <= |rest| && p < |r.procs| && |r.procs| == |s.procs| + StartsAll(rest[..k])
    && (forall j | 0 <= j < k :: Begun(s, r, rest, j, nodes[j], s.procs[p].priority))
    && if r.procs[p].complete then k == |rest| && |r.tokens| == |s.tokens| + StartsAll(rest[..k])
       else
         && k > 0 && r.procs[p].rest == rest[k..] && Polled(nodes[k - 1])
         && |r.tokens| == |s.tokens| + StartsAll(rest[..k]) + Tokens(nodes[k - 1])
         && Stands(r, nodes[k - 1], |s.tokens| + StartsAll(rest[..k]), |s.handlers|, None, Some(p))
  }

  /** `n` is await `j` of `rest`, bound by a process of priority `base`. */
  ghost predicate Begun(s: State, r: State, rest: seq<Await>, j: nat, n: Node, base: int)
    requires j < |rest|
  {
    Bound(r, rest[j], n, [], base, |s.procs| + StartsAll(rest[..j]), |s.tokens| + StartsAll(rest[..j]))
  }

  /** One await, and then the others. */
  lemma WentOn(s: State, s2: State, r: State, p: nat, n: Node, more: seq<Node>)
    requires p < |s.procs| && p < |s2.procs| && s.procs[p].rest != [] && s2.procs[p].rest == s.procs[p].rest[1..]
    requires s2.procs[p].priority == s.procs[p].priority && s2.handlers == s.handlers
    requires var e := s.procs[p].rest[0];
      |s2.procs| == |s.procs| + Starts(e) && |s2.tokens| == |s.tokens| + Starts(e)
    requires Begun(s, r, s.procs[p].rest, 0, n, s.procs[p].priority) && Went(s2, r, p, more)
    ensures Went(s, r, p, [n] + more)
  {
    var rest, nodes := s.procs[p].rest, [n] + more;
    hide Bound, Stands;
    forall j | 0 < j <= |nodes| ensures StartsAll(rest[..j]) == Starts(rest[0]) + StartsAll(rest[1..][..j - 1]) {
      StartsSplit(rest, j);
    }
    forall j | 0 <= j < |nodes| ensures Begun(s, r, rest, j, nodes[j], s.procs[p].priority) {
      if j > 0 {
        assert nodes[j] == more[j - 1] && Begun(s2, r, rest[1..], j - 1, more[j - 1], s.procs[p].priority);
        assert rest[j] == rest[1..][j - 1];
      }
    }
    assert rest[|nodes|..] == rest[1..][|more|..];
  }

  lemma ReturnWent(s: State, p: nat)
    requires WF(s) && p < |s.procs| && s.procs[p].rest == []
    ensures Went(s, DoReturn(s, p), p, [])
  {
    assert ProcWF(s.procs[p], |s.tokens|);
    ReturnMore(s, p, |s.tokens|, |s.procs|);
    assert s.procs[p].rest[..0] == [];
  }

  /** The next await is bound. */
  lemma BindNext(s: State, p: nat) returns (s2: State, node: Node, ready: bool)
    requires WF(s) && p < |s.procs| && !s.procs[p].complete && s.procs[p].rest != []
    ensures var e := s.procs[p].rest[0];
      && |s2.procs| == |s.procs| + Starts(e) && |s2.tokens| == |s.tokens| + Starts(e) && s2.handlers == s.handlers
      && Bound(s2, e, node, [], s.procs[p].priority, |s.procs|, |s.tokens|)
    ensures WF(s2) && NodeIn(node, |s2.procs|) && Polled(node)
    ensures p < |s2.procs| && s2.procs[p] == s.procs[p].(rest := s.procs[p].rest[1..])
    ensures Resume(s, p) == if ready then Resume(s2, p) else Suspend(s2, node, Some(p)).0
  {
    var proc := s.procs[p];
    assert ProcWF(proc, |s.tokens|);
    var s1 := SetProc(s, p, proc.(rest := proc.rest[1..]));
    BindMore(s1, proc.rest[0], proc.priority);
    BindBound(s1, proc.rest[0], proc.priority, [], proc.priority);
    var (r2, bound) := Bind(s1, proc.rest[0], proc.priority);
    assert r2.procs[p] == s1.procs[p];
    var (n, f) := Poll(r2, bound);
    s2, node, ready := r2, n, f;
    hide Bind, WF;
    PollBound(s2, proc.rest[0], bound, [], proc.priority, |s.procs|, |s.tokens|);
  }

  lemma WentReady(s: State, s2: State, r: State, p: nat, n: Node, more: seq<Node>)
    requires p < |s.procs| && p < |s2.procs| && s.procs[p].rest != [] && s2.procs[p].rest == s.procs[p].rest[1..]
    requires s2.procs[p].priority == s.procs[p].priority && s2.handlers == s.handlers
    requires var e := s.procs[p].rest[0];
      && |s2.procs| == |s.procs| + Starts(e) && |s2.tokens| == |s.tokens| + Starts(e)
      && Bound(s2, e, n, [], s.procs[p].priority, |s.procs|, |s.tokens|)
    requires More(s2, r, |s.tokens|) && Unstarted(s2, r, |s.procs|) && Went(s2, r, p, more)
    ensures Went(s, r, p, [n] + more)
  {
    hide Went, More, Unstarted;
    var rest := s.procs[p].rest;
    BoundKept(s2, r, |s.tokens|, |s.procs|, rest[0], n, [], s.procs[p].priority, |s.procs|, |s.tokens|);
    assert rest[..0] == [];
    WentOn(s, s2, r, p, n, more);
  }

  lemma {:induction false} ResumeWent(s: State, p: nat) returns (nodes: seq<Node>)
    requires WF(s) && p < |s.procs| && !s.procs[p].complete
    ensures Went(s, Resume(s, p), p, nodes)
    decreases |s.procs[p].rest|
  {
    var proc, r := s.procs[p], Resume(s, p);
    assert ProcWF(proc, |s.tokens|);
    if proc.rest == [] {
      nodes := [];
      ReturnWent(s, p);
    } else {
      var s2, node, ready := BindNext(s, p);
      hide Resume, WF, Went, Bound, Stands, More, Unstarted, Starts, NodeIn;
      if ready {
        var more := ResumeWent(s2, p);
        nodes := [node] + more;
        ResumeMore(s2, p, |s.tokens|, |s.procs|);
        WentReady(s, s2, r, p, node, more);
      } else {
        nodes := [node];
        SuspendMore(s2, node, Some(p));
        SuspendStands(s2, node, Some(p));
        WentOnce(s, s2, r, p, node);
      }
    }
  }

  lemma WentOnce(s: State, s2: State, r: State, p: nat, n: Node)
    requires p < |s.procs| && p < |s2.procs| && s.procs[p].rest != [] && s2.procs[p].rest == s.procs[p].rest[1..]
    requires !s2.procs[p].complete && s2.handlers == s.handlers && Polled(n)
    requires var e := s.procs[p].rest[0];
      && |s2.procs| == |s.procs| + Starts(e) && |s2.tokens| == |s.tokens| + Starts(e)
      && Bound(s2, e, n, [], s.procs[p].priority, |s.procs|, |s.tokens|)
    requires More(s2, r, 0) && Unstarted(s2, r, 0) && |r.procs| == |s2.procs| && |r.tokens| == |s2.tokens| + Tokens(n)
    requires Stands(r, n, |s2.tokens|, |s2.handlers|, None, Some(p))
    ensures Went(s, r, p, [n])
  {
    var rest := s.procs[p].rest;
    assert rest[..0] == [] && rest[..1] == [rest[0]] && [rest[0]][1..] == [];
    assert StartsAll([rest[0]]) == Starts(rest[0]) + StartsAll([]);
    BoundKept(s2, r, 0, 0, rest[0], n, [], s.procs[p].priority, |s.procs|, |s.tokens|);
  }

  // ----- over executions -----

  /** Whenever a process goes on, each await that it comes to is bound with the nearest
      priorities given on the way up its expression, its own at the top, and the tokens of
      the one that it is then suspended on have these priorities and times: so a timer or a
      composition has the nearest priority, a started process too, and a completion token
      that of the awaited process unless the await gives one. */
  lemma AwaitsInherit(run: seq<State>, acts: seq<Action>, i: nat, p: nat) returns (nodes: seq<Node>)
    requires Execution(run, acts) && i < |acts| && acts[i].Pop? && acts[i].t < |run[i].tokens|
    requires run[i].tokens[acts[i].t].handler.None? && run[i].tokens[acts[i].t].coro == Some(p)
    ensures p < |run[i].procs| && Went(run[i], run[i + 1], p, nodes)
  {
    hide Reachable, Went, Resume;
    ExecutionReaches(run, acts, i);
    assert HappensAt(run, acts, i);
    var s, t := run[i], acts[i].t;
    NeverResumesComplete(s, t);
    var now := Step(s, t).now;
    var s1 := s.(queue := s.queue - multiset{t}, now := now, log := s.log + [Stepped(t, now)]);
    assert run[i + 1] == Resume(s1, p);
    nodes := ResumeWent(s1, p);
    WentFrom(s, s1, run[i + 1], p, nodes);
  }

  lemma WentFrom(s: State, s1: State, r: State, p: nat, nodes: seq<Node>)
    requires p < |s.procs| && s1.procs == s.procs && |s1.tokens| == |s.tokens| && s1.handlers == s.handlers
    requires Went(s1, r, p, nodes)
    ensures Went(s, r, p, nodes)
  {
    forall j | 0 <= j < |nodes| ensures Begun(s, r, s.procs[p].rest, j, nodes[j], s.procs[p].priority) {
      assert Begun(s1, r, s.procs[p].rest, j, nodes[j], s.procs[p].priority);
    }
    hide Bound, Stands;
  }

  /** A process that is bound from outside starts after its latency with the priority given,
      or 0, and its completion token, for nobody, has that or the one given for it. */
  lemma LaunchInherits(run: seq<State>, acts: seq<Action>, i: nat)
    requires Execution(run, acts) && i < |acts| && acts[i].Launch?
    ensures var s, s', a := run[i], run[i + 1], acts[i];
      && Started(s', |s.procs|, |s.tokens|, a.body, s.now + a.start, [a.prio], 0)
      && |s'.procs| == |s.procs| + 1 && |s'.tokens| == |s.tokens| + 2
      && Stands(s', Process(|s.procs|, a.ret, a.retPrio), |s.tokens| + 1, |s.handlers|, None, None)
  {
    assert HappensAt(run, acts, i);
    var s, a := run[i], acts[i];
    NearestOne([], 0, 0, a.prio);
    assert [] + [a.prio] == [a.prio];
    var s1 := BindProcess(s, a.body, a.start, Resolve(a.prio, 0));
    LeafStands(s1, Process(|s.procs|, a.ret, a.retPrio), None);
  }

  // ----- what becomes of a token -----

  ghost predicate Distinct(cs: seq<nat>) {
    forall i, j | 0 <= i < j < |cs| :: cs[i] != cs[j]
  }

  lemma {:induction false} LandsEach(tokens: seq<Token>, cs: seq<nat>, now: int, q: nat)
    requires (forall i | 0 <= i < |cs| :: cs[i] < |tokens|) && Distinct(cs) && q < |tokens|
    ensures Land(tokens, cs, now)[q] == if q in cs then tokens[q].(time := tokens[q].time + now) else tokens[q]
    decreases cs
  {
    if cs != [] {
      var tokens' := tokens[cs[0] := tokens[cs[0]].(time := tokens[cs[0]].time + now)];
      LandsEach(tokens', cs[1..], now, q);
      assert q in cs <==> q == cs[0] || q in cs[1..];
      assert cs[0] !in cs[1..];
    }
  }

  /** Token `q` is put in the queue, for now plus the latency that it has held. */
  ghost predicate Lands(s: State, s': State, q: nat) {
    && q < |s.tokens| <= |s'.tokens| && q in s'.queue
    && s'.tokens[q] == s.tokens[q].(time := s.tokens[q].time + s'.now)
  }

  predicate SameToken(s: State, s': State, q: nat) {
    q < |s.tokens| <= |s'.tokens| && s'.tokens[q] == s.tokens[q]
  }

  lemma ReturnTokens(s: State, p: nat, q: nat)
    requires WF(s) && p < |s.procs| && Distinct(s.procs[p].completions) && q < |s.tokens|
    ensures if q in s.procs[p].completions then Lands(s, DoReturn(s, p), q) else SameToken(s, DoReturn(s, p), q)
  {
    assert ProcWF(s.procs[p], |s.tokens|);
    LandsEach(s.tokens, s.procs[p].completions, s.now, q);
  }

  /** Only if the process returns do older tokens change, and these are its completion
      tokens. */
  lemma {:induction false} ResumeTokens(s: State, p: nat, q: nat)
    requires WF(s) && p < |s.procs| && !s.procs[p].complete && Distinct(s.procs[p].completions) && q < |s.tokens|
    ensures var r := Resume(s, p);
      p < |r.procs| && if r.procs[p].complete && q in s.procs[p].completions then Lands(s, r, q) else SameToken(s, r, q)
    decreases |s.procs[p].rest|
  {
    if s.procs[p].rest == [] {
      ReturnTokens(s, p, q);
    } else {
      var s2, node, ready := BindOld(s, p, q);
      hide Resume, WF;
      if ready {
        ResumeTokens(s2, p, q);
      } else {
        SuspendMore(s2, node, Some(p));
        SuspendAdds(s2, node, Some(p));
      }
    }
  }

  lemma BindOld(s: State, p: nat, q: nat) returns (s2: State, node: Node, ready: bool)
    requires WF(s) && p < |s.procs| && !s.procs[p].complete && s.procs[p].rest != [] && q < |s.tokens|
    ensures WF(s2) && NodeIn(node, |s2.procs|) && Polled(node) && SameToken(s, s2, q) && s2.now == s.now
    ensures p < |s2.procs| && s2.procs[p] == s.procs[p].(rest := s.procs[p].rest[1..])
    ensures Resume(s, p) == if ready then Resume(s2, p) else Suspend(s2, node, Some(p)).0
  {
    var proc := s.procs[p];
    assert ProcWF(proc, |s.tokens|);
    var s1 := SetProc(s, p, proc.(rest := proc.rest[1..]));
    BindAdds(s1, proc.rest[0], proc.priority);
    var (r2, bound) := Bind(s1, proc.rest[0], proc.priority);
    assert r2.procs[p] == s1.procs[p];
    var (n, f) := Poll(r2, bound);
    s2, node, ready := r2, n, f;
  }

  /** In this step process `p` returns, and `q` is one of its completion tokens. */
  ghost predicate Completes(s: State, s': State, p: nat, q: nat) {
    p < |s.procs| <= |s'.procs| && !s.procs[p].complete && s'.procs[p].complete && q in s.procs[p].completions
  }

  /** In this step the handler `h` lets its output token `q` go. */
  ghost predicate Fires(s: State, s': State, h: nat, q: nat) {
    && h < |s.handlers| <= |s'.handlers| && s.handlers[h].completion == Some(q) && s'.handlers[h].completion.None?
  }

  ghost predicate Completed(s: State, s': State, q: nat) {
    exists p :: Completes(s, s', p, q)
  }

  ghost predicate Fired(s: State, s': State, q: nat) {
    exists h :: Fires(s, s', h, q)
  }

  /** A token never changes but twice at most: the completion tokens of a process when it
      returns, the output token of a composition when it fires; both are queued then. */
  lemma TokensChange(run: seq<State>, acts: seq<Action>, i: nat, q: nat)
    requires Execution(run, acts) && i < |acts| && q < |run[i].tokens|
    ensures SameToken(run[i], run[i + 1], q) || Lands(run[i], run[i + 1], q)
            || (acts[i].Pop? && Takes(run[i], run[i + 1], q, acts[i].t) && q in run[i + 1].queue)
    ensures Completed(run[i], run[i + 1], q) ==> Lands(run[i], run[i + 1], q)
    ensures !SameToken(run[i], run[i + 1], q) ==> Completed(run[i], run[i + 1], q) || Fired(run[i], run[i + 1], q)
  {
    hide Reachable, Step;
    ExecutionReaches(run, acts, i);
    assert HappensAt(run, acts, i);
    match acts[i] {
      case Launch(_, _, _, _, _) => LaunchTokens(run[i], acts[i], q);
      case Pop(t) => StepTokens(run[i], t, q);
      case Idle(_) =>
    }
  }

  lemma LaunchTokens(s: State, a: Action, q: nat)
    requires WF(s) && a.Launch? && q < |s.tokens|
    ensures SameToken(s, Act(s, a), q) && forall p :: !Completes(s, Act(s, a), p, q)
  {
  }

  lemma {:induction false} OthersLive(s: State, p: nat, x: nat)
    requires WF(s) && p < |s.procs| && x < |s.procs| && x != p && !s.procs[x].complete
    ensures x < |Resume(s, p).procs| && !Resume(s, p).procs[x].complete
    decreases |s.procs[p].rest|
  {
    var proc := s.procs[p];
    assert ProcWF(proc, |s.tokens|);
    if proc.rest != [] {
      var s1 := SetProc(s, p, proc.(rest := proc.rest[1..]));
      var (s2, bound) := Bind(s1, proc.rest[0], proc.priority);
      assert s2.procs[p] == s1.procs[p] && s2.procs[x] == s1.procs[x];
      var (node, ready) := Poll(s2, bound);
      if ready {
        OthersLive(s2, p, x);
      } else {
        SuspendMore(s2, node, Some(p));
      }
    }
  }

  /** `s'` has followed `s` by taking token `t`. */
  ghost predicate TokenChange(s: State, s': State, t: nat, q: nat) {
    && (SameToken(s, s', q) || Lands(s, s', q) || (Takes(s, s', q, t) && q in s'.queue))
    && (Completed(s, s', q) ==> Lands(s, s', q))
    && (!SameToken(s, s', q) ==> Completed(s, s', q) || Fired(s, s', q))
  }

  lemma StepTokens(s: State, t: nat, q: nat)
    requires Reachable(s) && WF(s) && IsTop(s, t) && q < |s.tokens|
    ensures TokenChange(s, Step(s, t), t, q)
  {
    hide Reachable, Resume, Invoke, Valid, TokenChange;
    NoErrors(s, t);
    var now, s' := Step(s, t).now, Step(s, t);
    var s1 := s.(queue := s.queue - multiset{t}, now := now, log := s.log + [Stepped(t, now)]);
    assert TokenWF(s.tokens[t], |s.handlers|, |s.procs|);
    if s.tokens[t].handler.Some? {
      HandlerTokens(s, s1, s.tokens[t].handler.value, t, q);
    } else if s.tokens[t].coro.Some? {
      var g := KernelTheorems.ReachableOk(s);
      NeverResumesComplete(s, t);
      CompletionsDistinct(s, g, s.tokens[t].coro.value);
      ProcessTokens(s, s1, s.tokens[t].coro.value, t, q);
    } else {
      NothingChanges(s, s1, t, q);
    }
  }

  lemma NothingChanges(s: State, s1: State, t: nat, q: nat)
    requires s1.tokens == s.tokens && s1.procs == s.procs && s1.handlers == s.handlers && q < |s.tokens|
    ensures TokenChange(s, s1, t, q)
  {
  }

  lemma HandlerTokens(s: State, s1: State, h: nat, t: nat, q: nat)
    requires s1.tokens == s.tokens && s1.procs == s.procs && s1.handlers == s.handlers && q < |s.tokens|
    requires WF(s1) && h < |s1.handlers| && t < |s1.tokens| && s1.tokens[t].error.None?
    ensures TokenChange(s, Invoke(s1, h, t), t, q)
  {
    InvokeTokens(s1, h, t, q);
    var s' := Invoke(s1, h, t);
    hide Invoke;
    assert Fires(s1, s', h, q) ==> Fires(s, s', h, q);
  }

  /** Only the process that runs may return. */
  lemma CompletedIs(s: State, s1: State, p: nat, q: nat)
    requires s1.procs == s.procs && WF(s1) && p < |s1.procs| && !s1.procs[p].complete
    ensures var r := Resume(s1, p);
      p < |r.procs| && (Completed(s, r, q) <==> r.procs[p].complete && q in s.procs[p].completions)
  {
    var r := Resume(s1, p);
    assert ProcWF(s.procs[p], |s1.tokens|);
    ResumeMore(s1, p, |s1.tokens|, |s.procs|);
    assert |s.procs| <= |r.procs|;
    hide Resume, WF, More, Unstarted;
    forall x | Completes(s, r, x, q) ensures x == p {
      if x != p { OthersLive(s1, p, x); }
    }
    assert r.procs[p].complete && q in s.procs[p].completions ==> Completes(s, r, p, q);
  }

  lemma ProcessTokens(s: State, s1: State, p: nat, t: nat, q: nat)
    requires s1.tokens == s.tokens && s1.procs == s.procs && s1.handlers == s.handlers && q < |s.tokens|
    requires WF(s1) && p < |s1.procs| && !s1.procs[p].complete && Distinct(s1.procs[p].completions)
    ensures TokenChange(s, Resume(s1, p), t, q)
  {
    hide Resume, WF, Takes, Distinct, Fired, Completed;
    ResumeTokens(s1, p, q);
    CompletedIs(s, s1, p, q);
  }

  lemma InvokeTokens(s: State, h: nat, t: nat, q: nat)
    requires WF(s) && h < |s.handlers| && t < |s.tokens| && s.tokens[t].error.None? && q < |s.tokens|
    ensures var s' := Invoke(s, h, t);
      && s'.procs == s.procs
      && (SameToken(s, s', q) || (Takes(s, s', q, t) && q in s'.queue && Fires(s, s', h, q)))
  {
    assert HandlerWF(s.handlers[h], |s.tokens|);
  }

  lemma CompletionsDistinct(s: State, g: Forecast, p: nat)
    requires Valid(s, g) && p < |s.procs|
    ensures Distinct(s.procs[p].completions)
  {
    assert ProcOk(s, g, p, None);
  }

  /** The priority of a process never changes. */
  lemma ProcessesKeepPriority(run: seq<State>, acts: seq<Action>, i: nat, p: nat)
    requires Execution(run, acts) && i < |acts| && p < |run[i].procs|
    ensures p < |run[i + 1].procs| && run[i + 1].procs[p].priority == run[i].procs[p].priority
  {
    hide Resume;
    assert HappensAt(run, acts, i);
    match acts[i] {
      case Launch(_, _, _, _, _) =>
      case Pop(t) =>
        var s, now := run[i], Step(run[i], t).now;
        var s1 := s.(queue := s.queue - multiset{t}, now := now, log := s.log + [Stepped(t, now)]);
        assert TokenWF(s.tokens[t], |s.handlers|, |s.procs|);
        if s.tokens[t].handler.None? && s.tokens[t].coro.Some? {
          var c := s.tokens[t].coro.value;
          assert ProcWF(s.procs[c], |s.tokens|);
          ResumeMore(s1, c, |s.tokens|, |s.procs|);
          assert SameProc(s1.procs[p], run[i + 1].procs[p], |s.tokens|);
        }
      case Idle(_) =>
    }
  }
}
