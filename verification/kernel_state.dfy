/** The simulation kernel as a state machine over values. Objects that the
    library allocates (tokens, composition handlers, coroutine states) live in
    append-only sequences and are named by their index; a queued or stored
    reference is such an index. The class `Environment` runs these functions on
    mutable fields. */
module KernelState {
  import opened Options
  import opened Priorities
  import opened AwaitAlgebra

  datatype Token = Token(time: int, priority: int, coro: Option<nat>, handler: Option<nat>, error: Option<nat>)

  /** The handler that the children of one composition share. `completion` is
      the output token until it has been scheduled. */
  datatype Handler = Handler(cond: Condition, total: nat, remaining: int, completion: Option<nat>)

  /** A process whose body awaits `rest`, one after the other. */
  datatype Proc = Proc(rest: seq<Await>, priority: int, completions: seq<nat>, complete: bool)

  datatype Event = Stepped(token: nat, at: int) | Returned(proc: nat, at: int)

  datatype State = State(
    now: int,
    tokens: seq<Token>,
    queue: multiset<nat>,
    handlers: seq<Handler>,
    procs: seq<Proc>,
    managed: set<nat>,
    escaped: Option<nat>,
    log: seq<Event>)

  /** An await expression after binding. `ready` and `remaining` are filled in
      by `Poll`. */
  datatype Node =
    | Timer(relative: bool, t: int, prio: int)
    | Group(cond: Condition, kids: seq<Node>, latency: nat, prio: int, ready: seq<bool>, remaining: int)
    | Process(proc: nat, ret: nat, retPrio: int)

  const Empty := State(0, [], multiset{}, [], [], {}, None, [])

  // ----- well-formed references -----

  predicate TokenWF(t: Token, handlers: nat, procs: nat) {
    (t.handler.Some? ==> t.handler.value < handlers) && (t.coro.Some? ==> t.coro.value < procs)
  }

  predicate HandlerWF(h: Handler, tokens: nat) {
    h.completion.Some? ==> h.completion.value < tokens
  }

  predicate ProcWF(p: Proc, tokens: nat) {
    forall i | 0 <= i < |p.completions| :: p.completions[i] < tokens
  }

  ghost predicate WF(s: State) {
    && (forall t | t in s.queue :: t < |s.tokens|)
    && (forall t | 0 <= t < |s.tokens| :: TokenWF(s.tokens[t], |s.handlers|, |s.procs|))
    && (forall h | 0 <= h < |s.handlers| :: HandlerWF(s.handlers[h], |s.tokens|))
    && (forall p | 0 <= p < |s.procs| :: ProcWF(s.procs[p], |s.tokens|))
  }

  /** The processes that `n` mentions exist. */
  predicate NodeIn(n: Node, procs: nat) {
    match n
    case Timer(_, _, _) => true
    case Group(_, kids, _, _, _, _) => forall k | k in kids :: NodeIn(k, procs)
    case Process(p, _, _) => p < procs
  }

  lemma {:induction false} NodeInMore(n: Node, a: nat, b: nat)
    requires NodeIn(n, a) && a <= b
    ensures NodeIn(n, b)
  {
    if n.Group? {
      forall k | k in n.kids ensures NodeIn(k, b) { NodeInMore(k, a, b); }
    }
  }

  /** Every composition in `n` has been asked whether it is ready. */
  predicate Polled(n: Node) {
    n.Group? ==> |n.ready| == |n.kids| && forall k | k in n.kids :: Polled(k)
  }

  // ----- the event queue -----

  /** A token that only carries an exception to the caller of `step`. */
  predicate Bare(t: Token) {
    t.coro.None? && t.handler.None? && t.error.Some?
  }

  /** The queue's comparator: `a` is to be popped after `b`. */
  predicate After(a: Token, b: Token) {
    Bare(b) || a.time > b.time || (a.time == b.time && a.priority > b.priority)
  }

  /** `t` may be at the top of the priority queue. */
  predicate IsTop(s: State, t: nat)
    requires forall q | q in s.queue :: q < |s.tokens|
  {
    t in s.queue && forall q | q in s.queue :: !After(s.tokens[t], s.tokens[q])
  }

  function Schedule(s: State, t: nat): (s': State)
    requires WF(s) && t < |s.tokens|
    ensures WF(s')
  {
    s.(queue := s.queue + multiset{t})
  }

  /** Allocates `tk`; its index is the number of tokens so far. */
  function Allocate(s: State, tk: Token): (s': State)
    requires WF(s) && TokenWF(tk, |s.handlers|, |s.procs|)
    ensures WF(s')
  {
    s.(tokens := s.tokens + [tk])
  }

  function SetToken(s: State, t: nat, tk: Token): (s': State)
    requires WF(s) && t < |s.tokens| && TokenWF(tk, |s.handlers|, |s.procs|)
    ensures WF(s')
  {
    s.(tokens := s.tokens[t := tk])
  }

  function SetHandler(s: State, h: nat, hd: Handler): (s': State)
    requires WF(s) && h < |s.handlers| && HandlerWF(hd, |s.tokens|)
    ensures WF(s')
  {
    s.(handlers := s.handlers[h := hd])
  }

  function NewHandler(s: State, hd: Handler): (s': State)
    requires WF(s) && HandlerWF(hd, |s.tokens|)
    ensures WF(s')
  {
    s.(handlers := s.handlers + [hd])
  }

  function SetProc(s: State, p: nat, proc: Proc): (s': State)
    requires WF(s) && p < |s.procs| && ProcWF(proc, |s.tokens|)
    ensures WF(s')
  {
    s.(procs := s.procs[p := proc])
  }

  function NewProc(s: State, proc: Proc): (s': State)
    requires WF(s) && ProcWF(proc, |s.tokens|)
    ensures WF(s')
  {
    s.(procs := s.procs + [proc])
  }

  function Resolve(prio: int, inherited: int): int {
    if prio == INHERIT then inherited else prio
  }

  // ----- await_bind -----

  /** Binds a fresh coroutine: schedules its start token and manages it. */
  function BindProcess(s: State, body: seq<Await>, start: nat, prio: int): (s': State)
    requires WF(s)
    ensures WF(s') && s'.procs == s.procs + [Proc(body, prio, [], false)] && s'.now == s.now
  {
    var p := |s.procs|;
    var s := NewProc(s, Proc(body, prio, [], false));
    var s := Schedule(Allocate(s, Token(s.now + start, prio, Some(p), None, None)), |s.tokens|);
    s.(managed := s.managed + {p})
  }

  function Bind(s: State, e: Await, prio: int): (r: (State, Node))
    requires WF(s)
    ensures WF(r.0) && NodeIn(r.1, |r.0.procs|) && r.0.now == s.now
    ensures |s.procs| <= |r.0.procs| && r.0.procs[..|s.procs|] == s.procs
    decreases e, 1
  {
    match e
    case Delay(d, p) => (s, Timer(true, d, Resolve(p, prio)))
    case Until(t, p) => (s, Timer(false, t, Resolve(p, prio)))
    case Compose(cond, kids, latency, p) =>
      var (s', ns) := BindAll(s, kids, Resolve(p, prio));
      (s', Group(cond, ns, latency, Resolve(p, prio), [], 0))
    case Sequential(kids, start, ret, p, retPrio) =>
      (BindProcess(s, kids, start, Resolve(p, prio)), Process(|s.procs|, ret, retPrio))
  }

  function BindAll(s: State, es: seq<Await>, prio: int): (r: (State, seq<Node>))
    requires WF(s)
    ensures WF(r.0) && |r.1| == |es| && r.0.now == s.now
    ensures forall n | n in r.1 :: NodeIn(n, |r.0.procs|)
    ensures |s.procs| <= |r.0.procs| && r.0.procs[..|s.procs|] == s.procs
    decreases es, 0
  {
    if es == [] then (s, [])
    else
      var (s1, n) := Bind(s, es[0], prio);
      var (s2, ns) := BindAll(s1, es[1..], prio);
      NodeInMore(n, |s1.procs|, |s2.procs|);
      (s2, [n] + ns)
  }

  // ----- await_ready -----

  predicate Holds(cond: Condition, total: int, remaining: int) {
    match cond
    case AnyOf => remaining < total
    case AllOf => remaining == 0
  }

  function CountReady(flags: seq<bool>): nat {
    if flags == [] then 0 else (if flags[0] then 1 else 0) + CountReady(flags[1..])
  }

  /** Whether `n` is ready, and `n` with its flags filled in. */
  function Poll(s: State, n: Node): (r: (Node, bool))
    requires NodeIn(n, |s.procs|)
    ensures NodeIn(r.0, |s.procs|) && Polled(r.0)
    decreases n, 1
  {
    match n
    case Timer(relative, t, _) => (n, !relative && s.now >= t)
    case Process(p, _, _) => (n, s.procs[p].complete)
    case Group(cond, kids, latency, prio, _, _) =>
      var (kids', ready) := PollAll(s, kids);
      var remaining := |kids| - CountReady(ready);
      (Group(cond, kids', latency, prio, ready, remaining), Holds(cond, |kids|, remaining))
  }

  function PollAll(s: State, ns: seq<Node>): (r: (seq<Node>, seq<bool>))
    requires forall n | n in ns :: NodeIn(n, |s.procs|)
    ensures |r.0| == |r.1| == |ns|
    ensures forall n | n in r.0 :: NodeIn(n, |s.procs|) && Polled(n)
    decreases ns, 0
  {
    if ns == [] then ([], [])
    else
      var (n, ready) := Poll(s, ns[0]);
      var (rest, flags) := PollAll(s, ns[1..]);
      ([n] + rest, [ready] + flags)
  }

  // ----- await_suspend -----

  /** Suspends `waiter` on the process `p`: a new completion token, with the next index. */
  function SuspendProcess(s: State, p: nat, ret: nat, retPrio: int, waiter: Option<nat>): (s': State)
    requires WF(s) && p < |s.procs| && (waiter.Some? ==> waiter.value < |s.procs|)
    ensures WF(s') && s'.now == s.now && |s'.tokens| == |s.tokens| + 1
    ensures |s'.procs| == |s.procs| && |s'.handlers| == |s.handlers|
  {
    var s1 := Allocate(s, Token(ret, Resolve(retPrio, s.procs[p].priority), waiter, None, None));
    assert ProcWF(s.procs[p], |s.tokens|);
    SetProc(s1, p, s.procs[p].(completions := s.procs[p].completions + [|s.tokens|]))
  }

  /** Suspends `waiter` on `n`; the result is the token that `n` exposes. */
  function Suspend(s: State, n: Node, waiter: Option<nat>): (r: (State, nat))
    requires WF(s) && NodeIn(n, |s.procs|) && Polled(n)
    requires waiter.Some? ==> waiter.value < |s.procs|
    ensures WF(r.0) && r.1 < |r.0.tokens| && r.0.now == s.now
    ensures |r.0.procs| == |s.procs| && |r.0.handlers| >= |s.handlers| && |r.0.tokens| >= |s.tokens|
    decreases n, 1
  {
    var id := |s.tokens|;
    match n
    case Timer(relative, t, prio) =>
      var time := if relative then s.now + t else t;
      (Schedule(Allocate(s, Token(time, prio, waiter, None, None)), id), id)
    case Process(p, ret, retPrio) => (SuspendProcess(s, p, ret, retPrio, waiter), id)
    case Group(cond, kids, latency, prio, ready, remaining) =>
      var s1 := Allocate(s, Token(latency, prio, waiter, None, None));
      var s2 := NewHandler(s1, Handler(cond, |kids|, remaining, Some(id)));
      (SuspendAll(s2, kids, ready, waiter, |s.handlers|), id)
  }

  /** Suspends on the children that are not ready and gives each of their
      tokens the handler `h`. */
  function SuspendAll(s: State, ns: seq<Node>, ready: seq<bool>, waiter: Option<nat>, h: nat): (s': State)
    requires WF(s) && |ready| == |ns| && h < |s.handlers|
    requires forall n | n in ns :: NodeIn(n, |s.procs|) && Polled(n)
    requires waiter.Some? ==> waiter.value < |s.procs|
    ensures WF(s') && s'.now == s.now
    ensures |s'.procs| == |s.procs| && |s'.handlers| >= |s.handlers| && |s'.tokens| >= |s.tokens|
    decreases ns, 0
  {
    if ns == [] then s
    else if ready[0] then SuspendAll(s, ns[1..], ready[1..], waiter, h)
    else
      var (s1, id) := Suspend(s, ns[0], waiter);
      assert TokenWF(s1.tokens[id], |s1.handlers|, |s1.procs|);
      var s2 := SetToken(s1, id, s1.tokens[id].(handler := Some(h)));
      SuspendAll(s2, ns[1..], ready[1..], waiter, h)
  }

  // ----- token processing -----

  /** The composition handler `h` takes the token `t` of one of its children. */
  function Invoke(s: State, h: nat, t: nat): (s': State)
    requires WF(s) && h < |s.handlers| && t < |s.tokens|
    ensures WF(s') && s'.now == s.now
  {
    var hd := s.handlers[h].(remaining := s.handlers[h].remaining - 1);
    assert HandlerWF(s.handlers[h], |s.tokens|);
    assert TokenWF(s.tokens[t], |s.handlers|, |s.procs|);
    var s := SetHandler(s, h, hd);
    if s.tokens[t].error.Some? then s.(escaped := s.tokens[t].error)
    else if hd.completion.Some? && Holds(hd.cond, hd.total, hd.remaining) then
      var c := hd.completion.value;
      var out := s.tokens[c].(
        time := s.tokens[c].time + s.tokens[t].time,
        priority := s.tokens[t].priority,
        coro := s.tokens[t].coro);
      assert TokenWF(s.tokens[c], |s.handlers|, |s.procs|);
      var s := Schedule(SetToken(s, c, out), c);
      SetHandler(s, h, hd.(completion := None))
    else s
  }

  /** The tokens after adding `now` to the time of each of `cs`. */
  function Land(tokens: seq<Token>, cs: seq<nat>, now: int): (r: seq<Token>)
    requires forall i | 0 <= i < |cs| :: cs[i] < |tokens|
    ensures |r| == |tokens|
    ensures forall i | 0 <= i < |r| :: r[i] == tokens[i].(time := r[i].time)
    decreases cs
  {
    if cs == [] then tokens
    else
      Land(tokens[cs[0] := tokens[cs[0]].(time := tokens[cs[0]].time + now)], cs[1..], now)
  }

  /** Schedules the completion tokens `cs` of a process that ends now. */
  function ScheduleCompletions(s: State, cs: seq<nat>): (s': State)
    requires WF(s) && forall i | 0 <= i < |cs| :: cs[i] < |s.tokens|
    ensures WF(s')
  {
    var tokens := Land(s.tokens, cs, s.now);
    assert forall t | 0 <= t < |tokens| && TokenWF(s.tokens[t], |s.handlers|, |s.procs|) ::
      TokenWF(tokens[t], |s.handlers|, |s.procs|);
    assert forall t | t in multiset(cs) :: t in cs;
    s.(tokens := tokens, queue := s.queue + multiset(cs))
  }

  /** The process `p` returns. */
  function DoReturn(s: State, p: nat): (s': State)
    requires WF(s) && p < |s.procs|
    ensures WF(s') && s'.now == s.now
  {
    assert ProcWF(s.procs[p], |s.tokens|);
    var s := ScheduleCompletions(s, s.procs[p].completions);
    var s := SetProc(s, p, s.procs[p].(completions := [], complete := true));
    s.(managed := s.managed - {p},
       log := s.log + [Returned(p, s.now)])
  }

  /** The process `p` runs until it suspends or returns. */
  function Resume(s: State, p: nat): (s': State)
    requires WF(s) && p < |s.procs|
    ensures WF(s') && s'.now == s.now
    decreases |s.procs[p].rest|
  {
    var proc := s.procs[p];
    if proc.rest == [] then DoReturn(s, p)
    else
      assert ProcWF(proc, |s.tokens|);
      var s1 := SetProc(s, p, proc.(rest := proc.rest[1..]));
      var (s2, bound) := Bind(s1, proc.rest[0], proc.priority);
      assert s2.procs[p] == s1.procs[p];
      var (node, ready) := Poll(s2, bound);
      if ready then Resume(s2, p) else Suspend(s2, node, Some(p)).0
  }

  /** One step of the environment that pops the token `t`. */
  function Step(s: State, t: nat): (s': State)
    requires WF(s) && t in s.queue
    ensures WF(s') && s'.now == if s.tokens[t].time > s.now then s.tokens[t].time else s.now
  {
    var tk := s.tokens[t];
    var now := if tk.time > s.now then tk.time else s.now;
    var s1 := s.(queue := s.queue - multiset{t}, now := now, log := s.log + [Stepped(t, now)]);
    assert TokenWF(tk, |s.handlers|, |s.procs|);
    if tk.handler.Some? then Invoke(s1, tk.handler.value, t)
    else if tk.coro.Some? then Resume(s1, tk.coro.value)
    else if tk.error.Some? then s1.(escaped := tk.error)
    else s1
  }
}
