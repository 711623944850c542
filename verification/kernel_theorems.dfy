/** What holds of every run of the kernel, from an empty environment, for every
    choice among tokens that the comparator leaves open. */
module KernelTheorems {
  import opened Options
  import opened Priorities
  import opened AwaitAlgebra
  import opened KernelState
  import opened KernelInvariant
  import opened KernelSteps

  // ----- runs -----

  /** What a caller does with an environment: bind a process, let the
      environment pop a token, or let the clock reach the end of a `run_until`. */
  datatype Action =
    | Launch(body: seq<Await>, start: nat, prio: int, ret: nat, retPrio: int)
    | Pop(t: nat)
    | Idle(until: int)

  /** Binds a process from outside any process: its completion token wakes nobody. */
  function LaunchProcess(s: State, body: seq<Await>, start: nat, prio: int, ret: nat, retPrio: int): (s': State)
    requires WF(s)
    ensures WF(s')
  {
    SuspendProcess(BindProcess(s, body, start, Resolve(prio, 0)), |s.procs|, ret, retPrio, None)
  }

  /** The end of `run_until(until)`. */
  function AdvanceTo(s: State, until: int): State {
    s.(now := if until > s.now then until else s.now)
  }

  predicate Allowed(s: State, a: Action)
    requires forall q | q in s.queue :: q < |s.tokens|
  {
    match a
    case Launch(_, _, _, _, _) => true
    case Pop(t) => IsTop(s, t)
    case Idle(until) => forall q | q in s.queue :: s.tokens[q].time > until
  }

  function Act(s: State, a: Action): (s': State)
    requires WF(s) && Allowed(s, a)
    ensures WF(s')
  {
    match a
    case Launch(body, start, prio, ret, retPrio) => LaunchProcess(s, body, start, prio, ret, retPrio)
    case Pop(t) => Step(s, t)
    case Idle(until) => AdvanceTo(s, until)
  }

  ghost predicate Runs(s: State, acts: seq<Action>, s': State)
    decreases acts
  {
    if acts == [] then s' == s
    else WF(s) && Allowed(s, acts[0]) && Runs(Act(s, acts[0]), acts[1..], s')
  }

  ghost predicate Reachable(s: State) {
    exists acts :: Runs(Empty, acts, s)
  }

  /** An execution state by state: action `i` leads from state `i` to the next. */
  ghost predicate HappensAt(run: seq<State>, acts: seq<Action>, i: nat)
    requires i < |acts| < |run|
  {
    WF(run[i]) && Allowed(run[i], acts[i]) && run[i + 1] == Act(run[i], acts[i])
  }

  ghost predicate Execution(run: seq<State>, acts: seq<Action>) {
    && |run| == |acts| + 1 && run[0] == Empty
    && forall i | 0 <= i < |acts| :: HappensAt(run, acts, i)
  }

  lemma {:induction false} ExecutionRuns(run: seq<State>, acts: seq<Action>, i: nat, j: nat)
    requires Execution(run, acts) && i <= j < |run|
    ensures Runs(run[i], acts[i..j], run[j])
    decreases j - i
  {
    hide Act, Allowed, WF;
    if i < j {
      assert HappensAt(run, acts, i);
      ExecutionRuns(run, acts, i + 1, j);
      assert acts[i..j][0] == acts[i] && acts[i..j][1..] == acts[i + 1..j];
    }
  }

  lemma ExecutionReaches(run: seq<State>, acts: seq<Action>, i: nat)
    requires Execution(run, acts) && i < |run|
    ensures Reachable(run[i])
  {
    ExecutionRuns(run, acts, 0, i);
  }

  // ----- the invariant holds in every reachable state -----

  lemma LaunchOk(s: State, g: Forecast, a: Action) returns (g': Forecast)
    requires Valid(s, g) && a.Launch?
    ensures Valid(Act(s, a), g') && Keeps(g, g')
    ensures |s.procs| < |g'.finish| && g'.finish[|s.procs|] == Thread(a.body, At(s.now + a.start))
  {
    hide TokenOk, ResumesOk, HandlerOk, LogOk, ProcOk;
    var p := |s.procs|;
    var s1 := BindProcess(s, a.body, a.start, Resolve(a.prio, 0));
    var g1 := BindProcessOk(s, g, a.body, a.start, Resolve(a.prio, 0), {}, {}, None);
    GrowsKeeps(s, g, s1, g1);
    g' := LaunchTokenOk(s1, g1, p, a.ret, a.retPrio);
    GrowsKeeps(s1, g1, Act(s, a), g');
  }

  /** The completion token of a process that is bound from outside. */
  lemma LaunchTokenOk(s: State, g: Forecast, p: nat, ret: nat, retPrio: int) returns (g': Forecast)
    requires Inv(s, g, {}, {}, None) && p < |s.procs| && !s.procs[p].complete
    requires g.wake[p] < |s.tokens| && g.home[g.wake[p]].Queued?
    ensures var s' := SuspendProcess(s, p, ret, retPrio, None);
      Inv(s', g', {}, {}, None) && Grows(s, g, s', g', {})
  {
    hide ResumesOk, HandlerOk, ProcOk;
    var n := Process(p, ret, retPrio);
    var s', id := SuspendProcess(s, p, ret, retPrio, None), |s.tokens|;
    g' := g.(due := g.due + [Meaning(n, s.now, g.finish)], home := g.home + [Completion(p)]);
    assert s.queue[id] == 0;
    assert Grows(s, g, s', g', {});
    assert s'.procs[p].completions == s.procs[p].completions + [id];
    TokenAdded(s, g, s', g', None, {}, {}, {});
    CloseOk(s', g', id);
  }

  /** A token that wakes no process needs no exemption. */
  lemma CloseOk(s: State, g: Forecast, id: nat)
    requires Inv(s, g, {}, {} + {id}, None) && id < |s.tokens| && s.tokens[id].coro.None?
    ensures Inv(s, g, {}, {}, None)
  {
    forall t | 0 <= t < |s.tokens| ensures ResumesOk(s, g, t, {}, None) {
      assert ResumesOk(s, g, t, {} + {id}, None);
    }
  }

  lemma IdleOk(s: State, g: Forecast, until: int)
    requires Valid(s, g) && forall q | q in s.queue :: s.tokens[q].time > until
    ensures Valid(AdvanceTo(s, until), g)
  {
    var s' := AdvanceTo(s, until);
    forall t | 0 <= t < |s'.tokens| ensures TokenOk(s', g, t, None) && ResumesOk(s', g, t, {}, None) {
      assert TokenOk(s, g, t, None) && ResumesOk(s, g, t, {}, None);
      if g.home[t].Queued? { assert t in s.queue; }
    }
    forall h | 0 <= h < |s'.handlers| ensures HandlerOk(s', g, h) {
      assert HandlerOk(s, g, h);
      assert Kids(s', g, h) == Kids(s, g, h);
    }
    forall p | 0 <= p < |s'.procs| ensures ProcOk(s', g, p, None) {
      assert ProcOk(s, g, p, None);
    }
  }

  /** The tokens that have been popped. */
  ghost function Processed(g: Forecast): set<nat> {
    set t: nat | t < |g.home| && g.home[t].Gone?
  }

  /** A forecast that has only been extended; more tokens may be spent. */
  ghost predicate Extends(g: Forecast, g': Forecast) {
    g.due <= g'.due && g.finish <= g'.finish && Processed(g) <= Processed(g')
  }

  lemma KeepsProcessed(g: Forecast, g': Forecast)
    requires Keeps(g, g')
    ensures Processed(g') == Processed(g) && Extends(g, g')
  {
    forall t ensures t in Processed(g') <==> t in Processed(g) {}
  }

  lemma PopStepOk(s: State, g: Forecast, t: nat) returns (g': Forecast)
    requires Valid(s, g) && IsTop(s, t)
    ensures Valid(Step(s, t), g') && Extends(g, g')
    ensures Processed(g') == Processed(g) + {t} && t !in Processed(g)
  {
    g' := StepOk(s, g, t);
    var g1 := Spent(g, t);
    assert t < |g.home|;
    SpentIsProcessed(g, t);
    KeepsProcessed(g1, g');
  }

  lemma SpentIsProcessed(g: Forecast, t: nat)
    requires t < |g.home|
    ensures Processed(Spent(g, t)) == Processed(g) + {t}
  {
    forall i ensures i in Processed(Spent(g, t)) <==> i in Processed(g) + {t} {}
  }

  lemma ActOk(s: State, g: Forecast, a: Action) returns (g': Forecast)
    requires Valid(s, g) && Allowed(s, a)
    ensures Valid(Act(s, a), g') && Extends(g, g')
    ensures Processed(g') == if a.Pop? then Processed(g) + {a.t} else Processed(g)
    ensures a.Pop? ==> a.t !in Processed(g)
    ensures a.Launch? ==> |s.procs| < |g'.finish| && g'.finish[|s.procs|] == Thread(a.body, At(s.now + a.start))
  {
    match a
    case Launch(_, _, _, _, _) =>
      g' := LaunchOk(s, g, a);
      KeepsProcessed(g, g');
    case Pop(t) =>
      g' := PopStepOk(s, g, t);
    case Idle(until) =>
      g' := g;
      IdleOk(s, g, until);
  }

  lemma {:induction false} RunOk(s: State, g: Forecast, acts: seq<Action>, s': State) returns (g': Forecast)
    requires Valid(s, g) && Runs(s, acts, s')
    ensures Valid(s', g') && Extends(g, g')
    ensures |Processed(g')| == |Processed(g)| + Pops(acts)
    decreases acts
  {
    hide Valid, Act, Allowed;
    if acts == [] {
      g' := g;
    } else {
      var g1 := ActOk(s, g, acts[0]);
      g' := RunOk(Act(s, acts[0]), g1, acts[1..], s');
    }
  }

  function Pops(acts: seq<Action>): nat {
    if acts == [] then 0 else (if acts[0].Pop? then 1 else 0) + Pops(acts[1..])
  }

  lemma EmptyOk()
    ensures Valid(Empty, Forecast([], [], [], []))
  {
  }

  lemma ReachableOk(s: State) returns (g: Forecast)
    requires Reachable(s)
    ensures Valid(s, g)
  {
    var acts :| Runs(Empty, acts, s);
    EmptyOk();
    g := RunOk(Empty, Forecast([], [], [], []), acts, s);
  }

  // ----- the timing theorem -----

  /** While a process has not returned, its return time is not past. */
  lemma NeverLate(s: State, g: Forecast, p: nat, from: int)
    requires Valid(s, g) && p < |s.procs| && !s.procs[p].complete
    requires forall q | q in s.queue :: from <= s.tokens[q].time
    ensures Le(At(from), g.finish[p])
  {
    assert ProcOk(s, g, p, None) && Awake(s, g, p);
    DueNotBefore(s, g, from, g.wake[p]);
    ThreadInflates(s.procs[p].rest, g.due[g.wake[p]]);
  }

  /** Process `p`, due at `due`, has returned at that time, or is due yet. */
  ghost predicate OnTime(s: State, p: nat, due: Instant) {
    && p < |s.procs|
    && (forall at :: Returned(p, at) in s.log ==> due == At(at))
    && (s.procs[p].complete <==> due.At? && Returned(p, due.t) in s.log)
    && (!s.procs[p].complete ==> Le(At(s.now), due))
    && (s.queue == multiset{} ==> (s.procs[p].complete <==> due.At?))
  }

  lemma TimingFrom(s0: State, a: Action, acts: seq<Action>, s: State)
    requires Reachable(s0) && a.Launch? && WF(s0) && Runs(Act(s0, a), acts, s)
    ensures OnTime(s, |s0.procs|, Thread(a.body, At(s0.now + a.start)))
  {
    hide Act, Runs, Reachable;
    var g0 := ReachableOk(s0);
    var g1 := ActOk(s0, g0, a);
    var g := RunOk(Act(s0, a), g1, acts, s);
    var p := |s0.procs|;
    assert ProcOk(s, g, p, None);
    if !s.procs[p].complete {
      forall q | q in s.queue ensures s.now <= s.tokens[q].time {
        assert TokenOk(s, g, q, None);
      }
      NeverLate(s, g, p, s.now);
      if s.queue == multiset{} && g.finish[p].At? {
        NeverLate(s, g, p, g.finish[p].t + 1);
      }
    }
  }

  /** The scheduler computes the timing algebra. In every execution, a process that
      is bound at any time returns exactly when the algebra says: not at another
      time, not late, and at all unless the algebra says never. */
  lemma TimingTheorem(run: seq<State>, acts: seq<Action>, i: nat, j: nat)
    requires Execution(run, acts) && i < j < |run| && acts[i].Launch?
    ensures OnTime(run[j], |run[i].procs|, Thread(acts[i].body, At(run[i].now + acts[i].start)))
  {
    hide Act, Runs, Reachable, OnTime, Thread;
    ExecutionReaches(run, acts, i);
    ExecutionRuns(run, acts, i + 1, j);
    assert HappensAt(run, acts, i);
    TimingFrom(run[i], acts[i], acts[i + 1..j], run[j]);
  }

  /** One await expression `e` that begins at time `n` ends at its denoted time. */
  lemma AwaitTakesItsTime(run: seq<State>, acts: seq<Action>, e: Await, n: nat, j: nat)
    requires Execution(run, acts) && 0 < j < |run|
    requires acts[0] == Launch([Until(n, INHERIT), e], 0, INHERIT, 0, INHERIT)
    ensures OnTime(run[j], 0, Denote(e, n))
  {
    hide Act, Runs, Reachable, OnTime;
    TimingTheorem(run, acts, 0, j);
    var body := acts[0].body;
    assert body[1..] == [e] && [e][1..] == [];
    assert Denote(body[0], 0) == At(n);
    assert Thread([e], At(n)) == Thread([], Denote(e, n));
  }

  // ----- one way to wake, and accounting -----

  /** `t` is referred to by the queue, a handler or a process. */
  ghost predicate Pending(s: State, t: nat) {
    && t < |s.tokens|
    && (t in s.queue
        || (exists h | 0 <= h < |s.handlers| :: s.handlers[h].completion == Some(t))
        || (exists p | 0 <= p < |s.procs| :: t in s.procs[p].completions))
  }

  /** Processing `t` would resume the process `p`. */
  ghost predicate Wakes(s: State, t: nat, p: nat) {
    Pending(s, t) && s.tokens[t].handler.None? && s.tokens[t].coro == Some(p)
  }

  lemma PendingIsLive(s: State, g: Forecast, t: nat)
    requires Valid(s, g)
    ensures Pending(s, t) <==> t < |s.tokens| && !g.home[t].Gone?
  {
    if t < |s.tokens| {
      assert TokenOk(s, g, t, None);
      forall p | 0 <= p < |s.procs| && t in s.procs[p].completions ensures !g.home[t].Gone? {
        assert ProcOk(s, g, p, None);
      }
    }
  }

  /** A suspended process has exactly one token that would resume it, and a
      completed process has none. */
  lemma OneWayToWake(s: State, p: nat)
    requires Reachable(s) && p < |s.procs|
    ensures s.procs[p].complete ==> forall t :: !Wakes(s, t, p)
    ensures !s.procs[p].complete ==>
      exists w :: Wakes(s, w, p) && forall t :: Wakes(s, t, p) ==> t == w
    ensures p in s.managed <==> !s.procs[p].complete
  {
    hide Reachable, HandlerOk;
    var g := ReachableOk(s);
    assert ProcOk(s, g, p, None);
    forall t: nat | Wakes(s, t, p) ensures !s.procs[p].complete && t == g.wake[p] {
      PendingIsLive(s, g, t);
      assert ResumesOk(s, g, t, {}, None);
    }
    if !s.procs[p].complete {
      PendingIsLive(s, g, g.wake[p]);
      assert Wakes(s, g.wake[p], p);
    }
  }

  /** `resume` is never called on a completed process. */
  lemma NeverResumesComplete(s: State, t: nat)
    requires Reachable(s) && WF(s) && IsTop(s, t)
    requires s.tokens[t].handler.None? && s.tokens[t].coro.Some?
    ensures s.tokens[t].coro.value < |s.procs| && !s.procs[s.tokens[t].coro.value].complete
  {
    hide Reachable, HandlerOk, ProcOk;
    var g := ReachableOk(s);
    assert TokenOk(s, g, t, None) && ResumesOk(s, g, t, {}, None);
  }

  /** The children of a composition that have not been processed. */
  ghost function PendingKids(s: State, h: nat): set<nat> {
    set c: nat | c < |s.tokens| && s.tokens[c].handler == Some(h) && Pending(s, c)
  }

  /** A handler's counter is the number of its unprocessed children; it holds
      its output token exactly as long as its condition does not hold; the
      queue refers to a token at most once; and no exception ever escapes. */
  lemma HandlerAccounting(s: State, h: nat)
    requires Reachable(s) && h < |s.handlers|
    ensures var hd := s.handlers[h];
      && hd.remaining == |PendingKids(s, h)| <= hd.total
      && (hd.completion.Some? <==> !Holds(hd.cond, hd.total, hd.remaining))
      && (hd.completion.Some? ==> hd.completion.value !in s.queue)
    ensures forall t :: s.queue[t] <= 1
    ensures s.escaped.None?
  {
    hide Reachable, ProcOk;
    var g := ReachableOk(s);
    assert HandlerOk(s, g, h);
    forall c: nat ensures c in PendingKids(s, h) <==> c in Kids(s, g, h) {
      PendingIsLive(s, g, c);
    }
    assert PendingKids(s, h) == Kids(s, g, h);
    forall t ensures s.queue[t] <= 1 {
      if t in s.queue { assert TokenOk(s, g, t, None); }
    }
    if s.handlers[h].completion.Some? {
      assert TokenOk(s, g, s.handlers[h].completion.value, None);
    }
  }

  /** No token is popped twice. */
  lemma NoTokenTwice(run: seq<State>, acts: seq<Action>, i: nat, j: nat)
    requires Execution(run, acts) && i < j < |acts| && acts[i].Pop? && acts[j].Pop?
    ensures acts[i].t != acts[j].t
  {
    EmptyOk();
    ExecutionRuns(run, acts, 0, |acts|);
    assert acts[0..|acts|] == acts;
    PopsDiffer(Empty, Forecast([], [], [], []), acts, run[|acts|], i, j);
  }

  lemma {:induction false} PopsDiffer(s: State, g: Forecast, acts: seq<Action>, s': State, i: nat, j: nat)
    requires Valid(s, g) && Runs(s, acts, s')
    requires i < j < |acts| && acts[i].Pop? && acts[j].Pop?
    ensures acts[i].t != acts[j].t
    decreases acts
  {
    hide Act, Valid, Allowed;
    var g1 := ActOk(s, g, acts[0]);
    if i == 0 {
      SpentStays(Act(s, acts[0]), g1, acts[1..], s', acts[0].t, j - 1);
    } else {
      PopsDiffer(Act(s, acts[0]), g1, acts[1..], s', i - 1, j - 1);
    }
  }

  lemma {:induction false} SpentStays(s: State, g: Forecast, acts: seq<Action>, s': State, t: nat, j: nat)
    requires Valid(s, g) && Runs(s, acts, s')
    requires t in Processed(g) && j < |acts| && acts[j].Pop?
    ensures acts[j].t != t
    decreases acts
  {
    hide Act, Valid, Allowed;
    var g1 := ActOk(s, g, acts[0]);
    if j > 0 {
      SpentStays(Act(s, acts[0]), g1, acts[1..], s', t, j - 1);
    }
  }

  // ----- the clock -----

  lemma ClockOfStep(s: State, t: nat)
    requires Reachable(s) && WF(s) && IsTop(s, t)
    ensures Step(s, t).now == s.tokens[t].time >= s.now
    ensures forall q | q in s.queue :: s.tokens[t].time <= s.tokens[q].time
    ensures forall q | q in s.queue && s.tokens[q].time == s.tokens[t].time ::
      s.tokens[t].priority <= s.tokens[q].priority
  {
    hide Reachable, HandlerOk, TokenOk, ResumesOk, ProcOk, Resume, Invoke;
    var g := ReachableOk(s);
    TopIsEarliest(s, g, t);
    forall q | q in s.queue && s.tokens[q].time == s.tokens[t].time
      ensures s.tokens[t].priority <= s.tokens[q].priority
    {
      assert !After(s.tokens[t], s.tokens[q]);
    }
  }

  /** The clock moves to the time of the token in hand, never back, and that token is
      the least queued by time and then by priority. */
  lemma ClockFollowsTokens(run: seq<State>, acts: seq<Action>, i: nat)
    requires Execution(run, acts) && i < |acts| && acts[i].Pop?
    ensures LeastQueued(run[i], acts[i].t)
    ensures run[i].now <= run[i].tokens[acts[i].t].time == run[i + 1].now
  {
    hide Step, Reachable;
    ExecutionReaches(run, acts, i);
    assert HappensAt(run, acts, i);
    ClockOfStep(run[i], acts[i].t);
  }

  ghost predicate LeastQueued(s: State, t: nat) {
    && t in s.queue && t < |s.tokens|
    && forall q | q in s.queue :: q < |s.tokens| &&
         (s.tokens[t].time < s.tokens[q].time
          || (s.tokens[t].time == s.tokens[q].time && s.tokens[t].priority <= s.tokens[q].priority))
  }

  /** The log of every reachable state is in time order. */
  lemma LogInOrder(s: State, i: nat, j: nat)
    requires Reachable(s) && i <= j < |s.log|
    ensures s.log[i].at <= s.log[j].at <= s.now
  {
    hide Inv, Reachable;
    var g := ReachableOk(s);
  }
}
