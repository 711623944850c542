/** How runs end and how they can be cut: a bound on the number of steps, the
    exact deadline of `run_until`, and the equivalence of one long run with two
    shorter ones. */
module KernelRuns {
  import opened Options
  import opened AwaitAlgebra
  import opened KernelState
  import opened KernelInvariant
  import opened KernelSteps
  import opened KernelTheorems
  import opened TokenOrder

  // ----- every run ends -----

  /** The number of tokens that awaiting `e` can ever allocate. */
  function Cost(e: Await): nat
    decreases e, 1
  {
    match e
    case Delay(_, _) => 1
    case Until(_, _) => 1
    case Compose(_, kids, _, _) => 1 + CostAll(kids)
    case Sequential(kids, _, _, _, _) => 2 + CostAll(kids)
  }

  function CostAll(es: seq<Await>): nat
    decreases es, 0
  {
    if es == [] then 0 else Cost(es[0]) + CostAll(es[1..])
  }

  /** The number of tokens that suspending on `n` can allocate. */
  function Exposed(n: Node): nat
    decreases n, 1
  {
    if n.Group? then 1 + ExposedAll(n.kids) else 1
  }

  function ExposedAll(ns: seq<Node>): nat
    decreases ns, 0
  {
    if ns == [] then 0 else Exposed(ns[0]) + ExposedAll(ns[1..])
  }

  function RestCost(procs: seq<Proc>): nat {
    if procs == [] then 0 else CostAll(procs[0].rest) + RestCost(procs[1..])
  }

  /** The number of tokens that can exist in a run from `s`. */
  function Budget(s: State): nat {
    |s.tokens| + RestCost(s.procs)
  }

  lemma {:induction false} RestCostUpdate(procs: seq<Proc>, p: nat, proc: Proc)
    requires p < |procs|
    ensures RestCost(procs[p := proc]) == RestCost(procs) - CostAll(procs[p].rest) + CostAll(proc.rest)
  {
    if p == 0 {
      assert procs[p := proc][1..] == procs[1..];
    } else {
      assert procs[p := proc][1..] == procs[1..][p - 1 := proc];
      RestCostUpdate(procs[1..], p - 1, proc);
    }
  }

  lemma {:induction false} RestCostAppend(procs: seq<Proc>, proc: Proc)
    ensures RestCost(procs + [proc]) == RestCost(procs) + CostAll(proc.rest)
  {
    if procs == [] {
      assert procs + [proc] == [proc];
    } else {
      assert (procs + [proc])[0] == procs[0] && (procs + [proc])[1..] == procs[1..] + [proc];
      RestCostAppend(procs[1..], proc);
    }
  }

  lemma {:induction false} BindCost(s: State, e: Await, prio: int)
    requires WF(s)
    ensures var (s', n) := Bind(s, e, prio);
      Budget(s') + Exposed(n) == Budget(s) + Cost(e)
    decreases e, 1
  {
    match e
    case Delay(_, _) =>
    case Until(_, _) =>
    case Compose(_, kids, _, p) => BindAllCost(s, kids, Resolve(p, prio));
    case Sequential(kids, _, _, p, _) => RestCostAppend(s.procs, Proc(kids, Resolve(p, prio), [], false));
  }

  lemma {:induction false} BindAllCost(s: State, es: seq<Await>, prio: int)
    requires WF(s)
    ensures var (s', ns) := BindAll(s, es, prio);
      Budget(s') + ExposedAll(ns) == Budget(s) + CostAll(es)
    decreases es, 0
  {
    if es != [] {
      BindCost(s, es[0], prio);
      BindAllCost(Bind(s, es[0], prio).0, es[1..], prio);
    }
  }

  lemma {:induction false} PollCost(s: State, n: Node)
    requires NodeIn(n, |s.procs|)
    ensures Exposed(Poll(s, n).0) == Exposed(n)
    decreases n, 1
  {
    if n.Group? { PollAllCost(s, n.kids); }
  }

  lemma {:induction false} PollAllCost(s: State, ns: seq<Node>)
    requires forall n | n in ns :: NodeIn(n, |s.procs|)
    ensures ExposedAll(PollAll(s, ns).0) == ExposedAll(ns)
    decreases ns, 0
  {
    if ns != [] {
      PollCost(s, ns[0]);
      PollAllCost(s, ns[1..]);
    }
  }

  lemma {:induction false} SuspendCost(s: State, n: Node, waiter: Option<nat>)
    requires WF(s) && NodeIn(n, |s.procs|) && Polled(n)
    requires waiter.Some? ==> waiter.value < |s.procs|
    ensures Budget(Suspend(s, n, waiter).0) <= Budget(s) + Exposed(n)
    decreases n, 1
  {
    match n
    case Timer(_, _, _) =>
    case Process(p, ret, retPrio) =>
      RestCostUpdate(s.procs, p, s.procs[p].(completions := s.procs[p].completions + [|s.tokens|]));
    case Group(cond, kids, latency, prio, ready, remaining) =>
      var s1 := Allocate(s, Token(latency, prio, waiter, None, None));
      var s2 := NewHandler(s1, Handler(cond, |kids|, remaining, Some(|s.tokens|)));
      SuspendAllCost(s2, kids, ready, waiter, |s.handlers|);
  }

  lemma {:induction false} SuspendAllCost(s: State, ns: seq<Node>, ready: seq<bool>, waiter: Option<nat>, h: nat)
    requires WF(s) && |ready| == |ns| && h < |s.handlers|
    requires forall n | n in ns :: NodeIn(n, |s.procs|) && Polled(n)
    requires waiter.Some? ==> waiter.value < |s.procs|
    ensures Budget(SuspendAll(s, ns, ready, waiter, h)) <= Budget(s) + ExposedAll(ns)
    decreases ns, 0
  {
    if ns == [] {
    } else if ready[0] {
      SuspendAllCost(s, ns[1..], ready[1..], waiter, h);
    } else {
      var (s1, id) := Suspend(s, ns[0], waiter);
      SuspendCost(s, ns[0], waiter);
      assert TokenWF(s1.tokens[id], |s1.handlers|, |s1.procs|);
      var s2 := SetToken(s1, id, s1.tokens[id].(handler := Some(h)));
      SuspendAllCost(s2, ns[1..], ready[1..], waiter, h);
    }
  }

  lemma {:induction false} ResumeCost(s: State, p: nat)
    requires WF(s) && p < |s.procs|
    ensures Budget(Resume(s, p)) <= Budget(s)
    decreases |s.procs[p].rest|
  {
    var proc := s.procs[p];
    assert ProcWF(proc, |s.tokens|);
    if proc.rest == [] {
      RestCostUpdate(s.procs, p, proc.(completions := [], complete := true));
    } else {
      var s1 := SetProc(s, p, proc.(rest := proc.rest[1..]));
      RestCostUpdate(s.procs, p, proc.(rest := proc.rest[1..]));
      var (s2, bound) := Bind(s1, proc.rest[0], proc.priority);
      BindCost(s1, proc.rest[0], proc.priority);
      assert s2.procs[p] == s1.procs[p];
      PollCost(s2, bound);
      var (node, ready) := Poll(s2, bound);
      if ready { ResumeCost(s2, p); } else { SuspendCost(s2, node, Some(p)); }
    }
  }

  /** Processing tokens never creates more work than the programs hold. */
  lemma StepCost(s: State, t: nat)
    requires WF(s) && t in s.queue
    ensures Budget(Step(s, t)) <= Budget(s)
  {
    var tk := s.tokens[t];
    assert TokenWF(tk, |s.handlers|, |s.procs|);
    if tk.handler.None? && tk.coro.Some? {
      ResumeCost(KernelSteps.Popped(s, t), tk.coro.value);
    }
  }

  lemma {:induction false} RunCost(s: State, acts: seq<Action>, s': State)
    requires Runs(s, acts, s') && forall a | a in acts :: !a.Launch?
    ensures Budget(s') <= Budget(s)
    decreases acts
  {
    if acts != [] {
      if acts[0].Pop? { StepCost(s, acts[0].t); }
      RunCost(Act(s, acts[0]), acts[1..], s');
    }
  }

  lemma {:induction false} BoundedSize(xs: set<nat>, n: nat)
    requires forall x | x in xs :: x < n
    ensures |xs| <= n
  {
    if n > 0 {
      BoundedSize(xs - {n - 1}, n - 1);
      if n - 1 in xs {
        assert |xs - {n - 1}| == |xs| - 1;
      } else {
        assert xs - {n - 1} == xs;
      }
    }
  }

  lemma PopsWithinBudget(s: State, acts: seq<Action>, s': State)
    requires Reachable(s) && Runs(s, acts, s') && forall a | a in acts :: !a.Launch?
    ensures Pops(acts) <= Budget(s)
  {
    var g := ReachableOk(s);
    var g' := RunOk(s, g, acts, s');
    RunCost(s, acts, s');
    BoundedSize(Processed(g'), |s'.tokens|);
  }

  predicate NoLaunch(acts: seq<Action>) {
    forall k | 0 <= k < |acts| :: !acts[k].Launch?
  }

  /** Every execution ends: from any of its states, and without further launches, no
      more tokens can be popped than the state's budget says. */
  lemma RunsAreFinite(run: seq<State>, acts: seq<Action>, i: nat, j: nat)
    requires Execution(run, acts) && i <= j < |run| && NoLaunch(acts[i..j])
    ensures Pops(acts[i..j]) <= Budget(run[i])
  {
    hide Reachable, Runs;
    ExecutionReaches(run, acts, i);
    ExecutionRuns(run, acts, i, j);
    PopsWithinBudget(run[i], acts[i..j], run[j]);
  }

  lemma NotAfterTrans(x: Token, y: Token, q: Token)
    requires !Bare(x) && !Bare(y) && !Bare(q) && !After(y, q)
    ensures After(y, x) ==> !After(x, q) && !After(x, x)
  {
  }

  /** A nonempty queue without bare exception tokens has a top. */
  lemma {:induction false} TopExists(tokens: seq<Token>, queue: multiset<nat>) returns (t: nat)
    requires queue != multiset{} && forall q | q in queue :: q < |tokens| && !Bare(tokens[q])
    ensures t in queue && forall q | q in queue :: !After(tokens[t], tokens[q])
    decreases queue
  {
    var x :| x in queue;
    var rest := queue - multiset{x};
    assert queue == rest + multiset{x};
    if rest == multiset{} {
      t := x;
    } else {
      var y := TopExists(tokens, rest);
      t := if After(tokens[y], tokens[x]) then x else y;
      forall q | q in rest ensures !After(tokens[t], tokens[q]) {
        NotAfterTrans(tokens[x], tokens[y], tokens[q]);
      }
    }
  }

  // ----- run_until -----

  /** `run_until(deadline)` goes from `s` to `s'` by popping `ts`. */
  ghost predicate RunsUntil(s: State, deadline: int, ts: seq<nat>, s': State)
    decreases ts
  {
    && WF(s)
    && if ts == [] then (forall q | q in s.queue :: s.tokens[q].time > deadline) && s' == AdvanceTo(s, deadline)
       else IsTop(s, ts[0]) && s.tokens[ts[0]].time <= deadline && RunsUntil(Step(s, ts[0]), deadline, ts[1..], s')
  }

  lemma {:induction false} UntilTheEnd(s: State, deadline: int, ts: seq<nat>, s': State)
    requires RunsUntil(s, deadline, ts, s')
    ensures WF(s') && forall q | q in s'.queue :: s'.tokens[q].time > deadline
    ensures s'.now == if deadline > s.now then deadline else s.now
    decreases ts
  {
    if ts != [] {
      UntilTheEnd(Step(s, ts[0]), deadline, ts[1..], s');
    }
  }

  /** A later start of the clock does not show once a later token is popped. */
  lemma IdleThenStep(s: State, t: nat, deadline: int)
    requires WF(s) && t in s.queue && s.tokens[t].time > deadline
    ensures Step(AdvanceTo(s, deadline), t) == Step(s, t)
  {
    var s1 := AdvanceTo(s, deadline);
    assert WF(s1);
    assert KernelSteps.Popped(s1, t) == KernelSteps.Popped(s, t);
  }

  /** Two runs in a row are one run. */
  lemma {:induction false} RunsJoin(s: State, d1: int, a: seq<nat>, s1: State, d2: int, b: seq<nat>, s2: State)
    requires d1 <= d2 && RunsUntil(s, d1, a, s1) && RunsUntil(s1, d2, b, s2)
    ensures RunsUntil(s, d2, a + b, s2)
    decreases a
  {
    hide Step;
    if a == [] {
      assert a + b == b;
      if b == [] {
        assert AdvanceTo(AdvanceTo(s, d1), d2) == AdvanceTo(s, d2);
      } else {
        IdleThenStep(s, b[0], d1);
      }
    } else {
      assert (a + b)[0] == a[0] && (a + b)[1..] == a[1..] + b;
      RunsJoin(Step(s, a[0]), d1, a[1..], s1, d2, b, s2);
    }
  }

  /** Nothing is due by the earlier deadline: the run to it only moves the clock. */
  lemma CutAtOnce(s: State, d1: int, d2: int, ts: seq<nat>, s2: State)
    requires d1 <= d2 && RunsUntil(s, d2, ts, s2)
    requires forall q | q in s.queue :: s.tokens[q].time > d1
    ensures RunsUntil(s, d1, [], AdvanceTo(s, d1)) && RunsUntil(AdvanceTo(s, d1), d2, ts, s2)
  {
    hide Step;
    assert WF(AdvanceTo(s, d1));
    if ts == [] {
      assert AdvanceTo(AdvanceTo(s, d1), d2) == AdvanceTo(s, d2);
    } else {
      IdleThenStep(s, ts[0], d1);
    }
  }

  lemma LaterThanTop(s: State, t: nat, d: int)
    requires WF(s) && IsTop(s, t) && s.tokens[t].time > d
    ensures forall q | q in s.queue :: s.tokens[q].time > d
  {
    forall q | q in s.queue ensures s.tokens[q].time > d {
      assert !After(s.tokens[t], s.tokens[q]);
    }
  }

  /** One run can be cut at any earlier deadline. */
  lemma {:induction false} RunsCut(s: State, d1: int, d2: int, ts: seq<nat>, s2: State) returns (k: nat, s1: State)
    requires d1 <= d2 && RunsUntil(s, d2, ts, s2)
    ensures k <= |ts| && RunsUntil(s, d1, ts[..k], s1) && RunsUntil(s1, d2, ts[k..], s2)
    decreases ts
  {
    hide Step, After, AdvanceTo;
    if ts == [] || s.tokens[ts[0]].time > d1 {
      k, s1 := 0, AdvanceTo(s, d1);
      if ts != [] {
        LaterThanTop(s, ts[0], d1);
      }
      CutAtOnce(s, d1, d2, ts, s2);
      assert ts[..0] == [] && ts[0..] == ts;
    } else {
      k, s1 := RunsCut(Step(s, ts[0]), d1, d2, ts[1..], s2);
      k := k + 1;
      assert ts[..k][0] == ts[0] && ts[..k][1..] == ts[1..][..k - 1];
      assert ts[k..] == ts[1..][k - 1..];
    }
  }

  /** Splitting a run changes nothing: the final states of `run_until(d2)` are
      those of `run_until(d1); run_until(d2)`, with the same tokens popped. */
  lemma SplittingChangesNothing(s: State, d1: int, d2: int, ts: seq<nat>, s2: State)
    requires d1 <= d2
    ensures RunsUntil(s, d2, ts, s2) <==>
      exists k: nat, s1 :: k <= |ts| && RunsUntil(s, d1, ts[..k], s1) && RunsUntil(s1, d2, ts[k..], s2)
  {
    hide Step;
    if RunsUntil(s, d2, ts, s2) {
      var k, s1 := RunsCut(s, d1, d2, ts, s2);
    }
    forall k: nat, s1 | k <= |ts| && RunsUntil(s, d1, ts[..k], s1) && RunsUntil(s1, d2, ts[k..], s2)
      ensures RunsUntil(s, d2, ts, s2)
    {
      assert ts == ts[..k] + ts[k..];
      RunsJoin(s, d1, ts[..k], s1, d2, ts[k..], s2);
    }
  }

  /** `run_for(a)` goes from `s` to `s'` by popping `ts`. */
  ghost predicate RunsFor(s: State, a: int, ts: seq<nat>, s': State) {
    RunsUntil(s, s.now + a, ts, s')
  }

  lemma RunForJoin(s: State, a: nat, b: nat, ts: seq<nat>, k: nat, s1: State, s2: State)
    requires k <= |ts| && RunsFor(s, a, ts[..k], s1) && RunsFor(s1, b, ts[k..], s2)
    ensures RunsFor(s, a + b, ts, s2)
  {
    hide Step, RunsUntil;
    UntilTheEnd(s, s.now + a, ts[..k], s1);
    assert ts == ts[..k] + ts[k..];
    RunsJoin(s, s.now + a, ts[..k], s1, s.now + (a + b), ts[k..], s2);
  }

  lemma RunForCut(s: State, a: nat, b: nat, ts: seq<nat>, s2: State) returns (k: nat, s1: State)
    requires RunsFor(s, a + b, ts, s2)
    ensures k <= |ts| && RunsFor(s, a, ts[..k], s1) && RunsFor(s1, b, ts[k..], s2)
  {
    hide Step, RunsUntil;
    k, s1 := RunsCut(s, s.now + a, s.now + (a + b), ts, s2);
    UntilTheEnd(s, s.now + a, ts[..k], s1);
  }

  /** `run_for(a); run_for(b)` is `run_for(a + b)`. */
  lemma RunForAdds(s: State, a: nat, b: nat, ts: seq<nat>, s2: State)
    ensures RunsFor(s, a + b, ts, s2) <==>
      exists k: nat, s1 :: k <= |ts| && RunsFor(s, a, ts[..k], s1) && RunsFor(s1, b, ts[k..], s2)
  {
    hide Step, RunsUntil;
    if RunsFor(s, a + b, ts, s2) {
      var k, s1 := RunForCut(s, a, b, ts, s2);
    }
    forall k: nat, s1 | k <= |ts| && RunsFor(s, a, ts[..k], s1) && RunsFor(s1, b, ts[k..], s2)
      ensures RunsFor(s, a + b, ts, s2)
    {
      RunForJoin(s, a, b, ts, k, s1, s2);
    }
  }

  /** Popping `ts`, each due by `deadline`, leads from `s` to `s'`. */
  ghost predicate Steps(s: State, deadline: int, ts: seq<nat>, s': State)
    decreases ts
  {
    && WF(s)
    && if ts == [] then s' == s
       else IsTop(s, ts[0]) && s.tokens[ts[0]].time <= deadline && Steps(Step(s, ts[0]), deadline, ts[1..], s')
  }

  lemma OneStep(s: State, deadline: int, t: nat)
    requires WF(s) && IsTop(s, t) && s.tokens[t].time <= deadline
    ensures Steps(s, deadline, [t], Step(s, t))
  {
    var s1 := Step(s, t);
    hide Step;
    assert [t][1..] == [] && Steps(s1, deadline, [], s1);
  }

  lemma {:induction false} StepsSnoc(s: State, deadline: int, ts: seq<nat>, s1: State, t: nat)
    requires Steps(s, deadline, ts, s1) && WF(s1) && IsTop(s1, t) && s1.tokens[t].time <= deadline
    ensures Steps(s, deadline, ts + [t], Step(s1, t))
    decreases ts
  {
    hide Step;
    if ts == [] {
      OneStep(s, deadline, t);
      assert ts + [t] == [t];
    } else {
      assert (ts + [t])[0] == ts[0] && (ts + [t])[1..] == ts[1..] + [t];
      StepsSnoc(Step(s, ts[0]), deadline, ts[1..], s1, t);
    }
  }

  lemma {:induction false} StepsThenStop(s: State, deadline: int, ts: seq<nat>, s1: State)
    requires Steps(s, deadline, ts, s1) && WF(s1)
    requires forall q | q in s1.queue :: s1.tokens[q].time > deadline
    ensures RunsUntil(s, deadline, ts, AdvanceTo(s1, deadline))
    decreases ts
  {
    hide Step;
    if ts != [] {
      StepsThenStop(Step(s, ts[0]), deadline, ts[1..], s1);
    }
  }

  lemma {:induction false} RunsSnoc(s: State, acts: seq<Action>, s1: State, a: Action)
    requires Runs(s, acts, s1) && WF(s1) && Allowed(s1, a)
    ensures Runs(s, acts + [a], Act(s1, a))
    decreases acts
  {
    hide Act;
    if acts == [] {
      assert (acts + [a])[1..] == [];
      assert Runs(Act(s1, a), [], Act(s1, a));
    } else {
      assert (acts + [a])[0] == acts[0] && (acts + [a])[1..] == acts[1..] + [a];
      RunsSnoc(Act(s, acts[0]), acts[1..], s1, a);
    }
  }

  /** How many more tokens a run from `s` can pop. */
  ghost function Left(s: State, g: Forecast): int {
    Budget(s) - |Processed(g)|
  }

  lemma LeftIsNat(s: State, g: Forecast)
    requires Valid(s, g)
    ensures Left(s, g) >= 0
  {
    hide TokenOk, ResumesOk, HandlerOk, ProcOk, LogOk, WF;
    BoundedSize(Processed(g), |s.tokens|);
  }

  lemma StepUsesBudget(s: State, g: Forecast, t: nat, g': Forecast)
    requires WF(s) && t in s.queue && Valid(Step(s, t), g')
    requires Processed(g') == Processed(g) + {t} && t !in Processed(g)
    ensures 0 <= Left(Step(s, t), g') < Left(s, g)
  {
    hide Valid, Step, Processed, WF;
    StepCost(s, t);
    LeftIsNat(Step(s, t), g');
  }

  // ----- what run_until has done -----

  lemma StepReaches(s: State, t: nat)
    requires Reachable(s) && WF(s) && IsTop(s, t)
    ensures Reachable(Step(s, t))
  {
    hide Step, Act, Allowed;
    var acts :| Runs(Empty, acts, s);
    PopIsStep(s, t);
    RunsSnoc(Empty, acts, s, Pop(t));
  }

  lemma PopIsStep(s: State, t: nat)
    requires WF(s) && IsTop(s, t)
    ensures Allowed(s, Pop(t)) && Act(s, Pop(t)) == Step(s, t)
  {
  }

  lemma {:induction false} UntilTheEndLog(s: State, deadline: int, ts: seq<nat>, s': State)
    requires Reachable(s) && RunsUntil(s, deadline, ts, s')
    ensures s.log <= s'.log && Stepping(s'.log) == Stepping(s.log) + ts
    ensures forall k | |s.log| <= k < |s'.log| :: s'.log[k].at <= deadline
    decreases ts
  {
    hide Step, Reachable;
    if ts == [] {
      assert Stepping(s.log) + ts == Stepping(s.log);
    } else {
      var s1 := Step(s, ts[0]);
      StepReaches(s, ts[0]);
      StepLogs(s, ts[0]);
      ClockOfStep(s, ts[0]);
      UntilTheEndLog(s1, deadline, ts[1..], s');
      forall k | |s.log| <= k < |s1.log| ensures s'.log[k].at <= deadline {
        LogInOrder(s1, k, k);
      }
      assert Stepping(s.log) + [ts[0]] + ts[1..] == Stepping(s.log) + ts;
    }
  }

  /** When `run_until` returns, exactly the work up to the deadline is done: it has
      processed the tokens `ts`, and nothing of what has happened is later than the
      deadline; all that is left, even what was created on the way, is later; and the
      clock shows the deadline unless it was already past it. */
  lemma ExactDeadline(s: State, deadline: int, ts: seq<nat>, s': State)
    requires Reachable(s) && RunsUntil(s, deadline, ts, s')
    ensures s.log <= s'.log && Stepping(s'.log) == Stepping(s.log) + ts
    ensures forall k | |s.log| <= k < |s'.log| :: s'.log[k].at <= deadline
    ensures WF(s') && forall q | q in s'.queue :: s'.tokens[q].time > deadline
    ensures s'.now == if deadline > s.now then deadline else s.now
  {
    hide Reachable;
    UntilTheEnd(s, deadline, ts, s');
    UntilTheEndLog(s, deadline, ts, s');
  }
}
