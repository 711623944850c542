/** When the comparator of the event queue is an ordering, and that what it compares
    does not change under the queue. */
module TokenOrder {
  import opened Options
  import opened AwaitAlgebra
  import opened KernelState
  import opened KernelInvariant
  import opened KernelTheorems

  ghost predicate Irreflexive(ts: set<Token>) {
    forall a | a in ts :: !After(a, a)
  }

  ghost predicate Transitive(ts: set<Token>) {
    forall a, b, c | a in ts && b in ts && c in ts :: After(a, b) && After(b, c) ==> After(a, c)
  }

  predicate Tied(a: Token, b: Token) {
    !After(a, b) && !After(b, a)
  }

  ghost predicate TiesTransitive(ts: set<Token>) {
    forall a, b, c | a in ts && b in ts && c in ts :: Tied(a, b) && Tied(b, c) ==> Tied(a, c)
  }

  /** What a priority queue demands of its comparator. */
  ghost predicate StrictWeakOrder(ts: set<Token>) {
    Irreflexive(ts) && Transitive(ts) && TiesTransitive(ts)
  }

  /** The comparator orders a set of tokens if and only if none of them is a bare
      exception token. */
  lemma OrderedIffNoBare(ts: set<Token>)
    ensures StrictWeakOrder(ts) <==> forall t | t in ts :: !Bare(t)
  {
    if t :| t in ts && Bare(t) {
      assert After(t, t);
    }
  }

  /** By time and then by priority. */
  predicate Later(a: Token, b: Token) {
    a.time > b.time || (a.time == b.time && a.priority > b.priority)
  }

  /** Two tokens are each to go after the other if and only if one is bare and the
      other is bare or would have gone first. */
  lemma BothAfterIff(a: Token, b: Token)
    ensures After(a, b) && After(b, a) <==>
      (Bare(a) && Bare(b)) || (Bare(a) && Later(a, b)) || (Bare(b) && Later(b, a))
  {
  }

  /** An input on which the comparator contradicts itself: a bare token at time 1
      and a process token at time 0. */
  lemma ContradictsItself()
    ensures var bare, other := Token(1, 0, None, None, Some(7)), Token(0, 0, Some(0), None, None);
      After(bare, other) && After(other, bare)
  {
  }

  // ----- queued tokens do not change -----

  /** Tokens, handlers and the queue have only been added to. */
  ghost predicate Adds(s: State, s': State) {
    s.tokens <= s'.tokens && s.queue <= s'.queue && s.handlers <= s'.handlers && s'.log == s.log
  }

  lemma {:induction false} BindAdds(s: State, e: Await, prio: int)
    requires WF(s)
    ensures Adds(s, Bind(s, e, prio).0)
    decreases e, 1
  {
    if e.Compose? {
      BindAllAdds(s, e.kids, Resolve(e.prio, prio));
    }
  }

  lemma {:induction false} BindAllAdds(s: State, es: seq<Await>, prio: int)
    requires WF(s)
    ensures Adds(s, BindAll(s, es, prio).0)
    decreases es, 0
  {
    if es != [] {
      BindAdds(s, es[0], prio);
      BindAllAdds(Bind(s, es[0], prio).0, es[1..], prio);
    }
  }

  /** Suspending creates the token it exposes, and changes no older one. */
  lemma {:induction false} SuspendAdds(s: State, n: Node, waiter: Option<nat>)
    requires WF(s) && NodeIn(n, |s.procs|) && Polled(n) && (waiter.Some? ==> waiter.value < |s.procs|)
    ensures Adds(s, Suspend(s, n, waiter).0) && Suspend(s, n, waiter).1 == |s.tokens|
    decreases n, 1
  {
    if n.Group? {
      var s1 := Allocate(s, Token(n.latency, n.prio, waiter, None, None));
      var s2 := NewHandler(s1, Handler(n.cond, |n.kids|, n.remaining, Some(|s.tokens|)));
      SuspendAllAdds(s2, n.kids, n.ready, waiter, |s.handlers|);
    }
  }

  lemma {:induction false} SuspendAllAdds(s: State, ns: seq<Node>, ready: seq<bool>, waiter: Option<nat>, h: nat)
    requires WF(s) && |ready| == |ns| && h < |s.handlers| && (waiter.Some? ==> waiter.value < |s.procs|)
    requires forall n | n in ns :: NodeIn(n, |s.procs|) && Polled(n)
    ensures Adds(s, SuspendAll(s, ns, ready, waiter, h))
    decreases ns, 0
  {
    if ns != [] {
      if ready[0] {
        SuspendAllAdds(s, ns[1..], ready[1..], waiter, h);
      } else {
        SuspendAdds(s, ns[0], waiter);
        var (s1, id) := Suspend(s, ns[0], waiter);
        assert TokenWF(s1.tokens[id], |s1.handlers|, |s1.procs|);
        var s2 := SetToken(s1, id, s1.tokens[id].(handler := Some(h)));
        SuspendAllAdds(s2, ns[1..], ready[1..], waiter, h);
      }
    }
  }

  /** Token `q` is queued in both states, and the same. */
  ghost predicate Stays(s: State, s': State, q: nat) {
    q in s.queue && q in s'.queue && q < |s.tokens| <= |s'.tokens| && s'.tokens[q] == s.tokens[q]
  }

  lemma {:induction false} LandsOthers(tokens: seq<Token>, cs: seq<nat>, now: int, q: nat)
    requires (forall i | 0 <= i < |cs| :: cs[i] < |tokens|) && q < |tokens| && q !in cs
    ensures Land(tokens, cs, now)[q] == tokens[q]
    decreases cs
  {
    if cs != [] {
      LandsOthers(tokens[cs[0] := tokens[cs[0]].(time := tokens[cs[0]].time + now)], cs[1..], now, q);
    }
  }

  lemma {:induction false} ResumeKeepsQueued(s: State, p: nat, q: nat)
    requires WF(s) && p < |s.procs| && q in s.queue && q !in s.procs[p].completions
    ensures Stays(s, Resume(s, p), q)
    decreases |s.procs[p].rest|
  {
    var proc := s.procs[p];
    assert ProcWF(proc, |s.tokens|);
    if proc.rest == [] {
      LandsOthers(s.tokens, proc.completions, s.now, q);
    } else {
      var s1 := SetProc(s, p, proc.(rest := proc.rest[1..]));
      BindAdds(s1, proc.rest[0], proc.priority);
      var (s2, bound) := Bind(s1, proc.rest[0], proc.priority);
      assert s2.procs[p] == s1.procs[p];
      var (node, ready) := Poll(s2, bound);
      if ready {
        ResumeKeepsQueued(s2, p, q);
      } else {
        SuspendAdds(s2, node, Some(p));
      }
    }
  }

  lemma StepKeepsQueued(s: State, t: nat, q: nat)
    requires Reachable(s) && WF(s) && IsTop(s, t) && q in s.queue && q != t
    ensures Stays(s, Step(s, t), q)
  {
    hide Reachable, Resume, Invoke, Inv;
    var g := KernelTheorems.ReachableOk(s);
    var now := Step(s, t).now;
    var s1 := s.(queue := s.queue - multiset{t}, now := now, log := s.log + [Stepped(t, now)]);
    assert TokenWF(s.tokens[t], |s.handlers|, |s.procs|);
    if s.tokens[t].handler.Some? {
      InvokeKeepsQueued(s, g, s1, t, q);
    } else if s.tokens[t].coro.Some? {
      var p := s.tokens[t].coro.value;
      NotAwaited(s, g, p, q);
      ResumeKeepsQueued(s1, p, q);
    }
  }

  lemma NotAwaited(s: State, g: Forecast, p: nat, q: nat)
    requires Valid(s, g) && p < |s.procs| && q in s.queue
    ensures q !in s.procs[p].completions
  {
    assert TokenOk(s, g, q, None) && ProcOk(s, g, p, None);
  }

  lemma InvokeKeepsQueued(s: State, g: Forecast, s1: State, t: nat, q: nat)
    requires Valid(s, g) && WF(s1) && t in s.queue && q in s.queue && q != t
    requires s1.tokens == s.tokens && s1.handlers == s.handlers && s1.procs == s.procs
    requires s1.queue == s.queue - multiset{t}
    requires s.tokens[t].handler.Some?
    ensures s.tokens[t].handler.value < |s.handlers| && Stays(s, Invoke(s1, s.tokens[t].handler.value, t), q)
  {
    assert TokenWF(s.tokens[t], |s.handlers|, |s.procs|);
    assert TokenOk(s, g, q, None);
  }

  /** No pop changes a queued token other than the one it takes, not its time and not
      its priority. */
  lemma QueuedTokensStay(run: seq<State>, acts: seq<Action>, i: nat, q: nat)
    requires Execution(run, acts) && i < |acts| && acts[i].Pop?
    requires q in run[i].queue && q != acts[i].t
    ensures Stays(run[i], run[i + 1], q)
  {
    hide Step, Reachable;
    ExecutionReaches(run, acts, i);
    assert HappensAt(run, acts, i);
    StepKeepsQueued(run[i], acts[i].t, q);
  }

  // ----- output tokens -----

  lemma {:induction false} ResumeKeepsHandlers(s: State, p: nat)
    requires WF(s) && p < |s.procs|
    ensures s.handlers <= Resume(s, p).handlers
    ensures Resume(s, p).log == s.log || Resume(s, p).log == s.log + [Returned(p, s.now)]
    decreases |s.procs[p].rest|
  {
    var proc := s.procs[p];
    assert ProcWF(proc, |s.tokens|);
    if proc.rest != [] {
      var s1 := SetProc(s, p, proc.(rest := proc.rest[1..]));
      BindAdds(s1, proc.rest[0], proc.priority);
      var (s2, bound) := Bind(s1, proc.rest[0], proc.priority);
      assert s2.procs[p] == s1.procs[p];
      var (node, ready) := Poll(s2, bound);
      if ready {
        ResumeKeepsHandlers(s2, p);
      } else {
        SuspendAdds(s2, node, Some(p));
      }
    }
  }

  /** The tokens that a log tells of. */
  function Stepping(log: seq<Event>): seq<nat> {
    if log == [] then []
    else
      var e := log[|log| - 1];
      Stepping(log[..|log| - 1]) + if e.Stepped? then [e.token] else []
  }

  lemma SteppingMore(log: seq<Event>, e: Event)
    ensures Stepping(log + [e]) == Stepping(log) + if e.Stepped? then [e.token] else []
  {
    assert (log + [e])[..|log|] == log;
  }

  lemma StepLogs(s: State, t: nat)
    requires WF(s) && t in s.queue
    ensures s.log <= Step(s, t).log && Stepping(Step(s, t).log) == Stepping(s.log) + [t]
  {
    hide Resume;
    var now := Step(s, t).now;
    var s1 := s.(queue := s.queue - multiset{t}, now := now, log := s.log + [Stepped(t, now)]);
    assert TokenWF(s.tokens[t], |s.handlers|, |s.procs|);
    SteppingMore(s.log, Stepped(t, now));
    if s.tokens[t].handler.None? && s.tokens[t].coro.Some? {
      ResumeKeepsHandlers(s1, s.tokens[t].coro.value);
      SteppingMore(s1.log, Returned(s.tokens[t].coro.value, now));
    }
  }

  /** The output token `c` is due its latency after the token `t` of the child, and takes
      that one's priority and process. */
  ghost predicate Takes(s: State, s': State, c: nat, t: nat) {
    && c < |s.tokens| <= |s'.tokens| && t < |s.tokens|
    && s'.tokens[c].time == s.tokens[c].time + s.tokens[t].time
    && s'.tokens[c].priority == s.tokens[t].priority && s'.tokens[c].coro == s.tokens[t].coro
    && s'.tokens[c].handler == s.tokens[c].handler && s'.tokens[c].error == s.tokens[c].error
  }

  /** Only the handler of the token in hand may let its output token go. */
  lemma StepHandlers(s: State, t: nat, h: nat)
    requires WF(s) && t in s.queue && h < |s.handlers| && s.tokens[t].error.None?
    ensures h < |Step(s, t).handlers|
    ensures s.tokens[t].handler != Some(h) ==> Step(s, t).handlers[h] == s.handlers[h]
    ensures s.tokens[t].handler == Some(h) ==>
      var hd, hd' := s.handlers[h], Step(s, t).handlers[h];
      && hd'.cond == hd.cond && hd'.total == hd.total && hd'.remaining == hd.remaining - 1
      && (hd'.completion == hd.completion
          || (hd'.completion.None? && hd.completion.Some? && hd.completion.value in Step(s, t).queue
              && Holds(hd'.cond, hd'.total, hd'.remaining) && Takes(s, Step(s, t), hd.completion.value, t)))
  {
    hide Resume;
    var now := Step(s, t).now;
    var s1 := s.(queue := s.queue - multiset{t}, now := now, log := s.log + [Stepped(t, now)]);
    assert TokenWF(s.tokens[t], |s.handlers|, |s.procs|) && HandlerWF(s.handlers[h], |s.tokens|);
    if s.tokens[t].handler.None? && s.tokens[t].coro.Some? {
      ResumeKeepsHandlers(s1, s.tokens[t].coro.value);
    }
  }

  /** The output token of a composition leaves its handler in the very step in which the
      condition becomes true, by the token of one of its children, and is queued then, its
      latency later, with the priority and the process of that token. */
  lemma OutputScheduledWhenTrue(run: seq<State>, acts: seq<Action>, i: nat, h: nat)
    requires Execution(run, acts) && i < |acts| && h < |run[i].handlers| && run[i].handlers[h].completion.Some?
    ensures h < |run[i + 1].handlers|
    ensures var hd, hd' := run[i].handlers[h], run[i + 1].handlers[h];
      && hd'.cond == hd.cond && hd'.total == hd.total
      && !Holds(hd.cond, hd.total, hd.remaining)
      && (hd'.completion != hd.completion <==> Holds(hd'.cond, hd'.total, hd'.remaining))
      && (hd'.completion != hd.completion ==>
            && hd'.completion.None? && hd.completion.value in run[i + 1].queue && hd.completion.value !in run[i].queue
            && acts[i].Pop? && acts[i].t < |run[i].tokens| && run[i].tokens[acts[i].t].handler == Some(h)
            && Takes(run[i], run[i + 1], hd.completion.value, acts[i].t))
  {
    hide Step, Reachable, LaunchProcess, Holds;
    ExecutionReaches(run, acts, i);
    ExecutionReaches(run, acts, i + 1);
    assert HappensAt(run, acts, i);
    HandlerAccounting(run[i], h);
    match acts[i] {
      case Launch(_, _, _, _, _) => LaunchHandlers(run[i], acts[i]);
      case Pop(t) =>
        NoErrors(run[i], t);
        StepHandlers(run[i], t, h);
      case Idle(_) =>
    }
    HandlerAccounting(run[i + 1], h);
  }

  lemma NoErrors(s: State, t: nat)
    requires Reachable(s) && t in s.queue
    ensures t < |s.tokens| && s.tokens[t].error.None?
  {
    hide Reachable;
    var g := KernelTheorems.ReachableOk(s);
    assert TokenOk(s, g, t, None);
  }

  lemma LaunchHandlers(s: State, a: Action)
    requires WF(s) && a.Launch?
    ensures Act(s, a).handlers == s.handlers
  {
  }

  /** And once it has left, the handler holds no output token again. */
  lemma {:induction false} OutputScheduledOnce(run: seq<State>, acts: seq<Action>, i: nat, j: nat, h: nat)
    requires Execution(run, acts) && i <= j < |run| && h < |run[i].handlers| && run[i].handlers[h].completion.None?
    ensures h < |run[j].handlers| && run[j].handlers[h].completion.None?
    decreases j - i
  {
    hide Step, Reachable, LaunchProcess;
    if i < j {
      ExecutionReaches(run, acts, i);
      assert HappensAt(run, acts, i);
      match acts[i] {
        case Launch(_, _, _, _, _) => LaunchHandlers(run[i], acts[i]);
        case Pop(t) =>
          NoErrors(run[i], t);
          StepHandlers(run[i], t, h);
        case Idle(_) =>
      }
      OutputScheduledOnce(run, acts, i + 1, j, h);
    }
  }
}
