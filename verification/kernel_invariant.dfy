/** What every reachable kernel state satisfies. The heart is a forecast: each
    token and each process is given its due time once, when it is created, and
    that time stays consistent with all live tokens and handlers until it is
    reached. */
module KernelInvariant {
  import opened Options
  import opened AwaitAlgebra
  import opened KernelState

  /** Who refers to a token. */
  datatype Home = Queued | Output(h: nat) | Completion(p: nat) | Gone

  /** Per token its due time and its place; per process the token that resumes
      it and the time at which it returns. */
  datatype Forecast = Forecast(due: seq<Instant>, home: seq<Home>, wake: seq<nat>, finish: seq<Instant>)

  function Minus(a: Instant, d: int): Instant {
    match a
    case At(t) => At(t - d)
    case Never => Never
  }

  ghost predicate Shape(s: State, g: Forecast) {
    && |g.due| == |g.home| == |s.tokens|
    && |g.wake| == |g.finish| == |s.procs|
  }

  /** The unprocessed tokens of the children of the composition `h`. */
  ghost function Kids(s: State, g: Forecast, h: nat): set<nat>
    requires |g.home| == |s.tokens|
  {
    set c: nat | c < |s.tokens| && s.tokens[c].handler == Some(h) && !g.home[c].Gone?
  }

  ghost function Times(ks: set<nat>, due: seq<Instant>): set<Instant> {
    set k | k in ks && k < |due| :: due[k]
  }

  /** `t` is the latest, or for an `any_of` the earliest, of `ts`. */
  ghost predicate Aggregates(cond: Condition, ts: set<Instant>, t: Instant) {
    match cond
    case AllOf => t in ts && forall x | x in ts :: Le(x, t)
    case AnyOf => (t.Never? || t in ts) && forall x | x in ts :: Le(t, x)
  }

  ghost predicate TokenOk(s: State, g: Forecast, t: nat, cur: Option<nat>)
    requires Shape(s, g) && t < |s.tokens|
  {
    var tk := s.tokens[t];
    && tk.error.None?
    && s.queue[t] == (if g.home[t].Queued? then 1 else 0)
    && match g.home[t]
       case Queued => g.due[t] == At(tk.time) && s.now <= tk.time
       case Output(h) => h < |s.handlers| && s.handlers[h].completion == Some(t)
       case Completion(p) =>
         && p < |s.procs| && t in s.procs[p].completions && !s.procs[p].complete
         && tk.time >= 0 && g.due[t] == Plus(g.finish[p], tk.time)
         && (cur != Some(p) ==> g.wake[p] < |s.tokens| && (g.home[g.wake[p]].Queued? || g.wake[p] > t))
       case Gone => true
  }

  /** A live token that would resume a process is the one that process waits for. */
  ghost predicate ResumesOk(s: State, g: Forecast, t: nat, open: set<nat>, cur: Option<nat>)
    requires Shape(s, g) && t < |s.tokens|
  {
    var tk := s.tokens[t];
    !g.home[t].Gone? && tk.handler.None? && tk.coro.Some? && t !in open ==>
      tk.coro.value < |s.procs| && tk.coro != cur
      && !s.procs[tk.coro.value].complete && g.wake[tk.coro.value] == t
  }

  ghost predicate HandlerOk(s: State, g: Forecast, h: nat)
    requires Shape(s, g) && h < |s.handlers|
  {
    var hd := s.handlers[h];
    var ks := Kids(s, g, h);
    && hd.remaining == |ks| <= hd.total
    && (hd.completion.Some? <==> !Holds(hd.cond, hd.total, hd.remaining))
    && (hd.completion.Some? ==>
          var c := hd.completion.value;
          && c < |s.tokens|
          && s.tokens[c].time >= 0
          && (forall k | k in ks :: k > c && s.tokens[k].coro == s.tokens[c].coro)
          && Aggregates(hd.cond, Times(ks, g.due), Minus(g.due[c], s.tokens[c].time)))
  }

  ghost predicate Awake(s: State, g: Forecast, p: nat)
    requires Shape(s, g) && p < |s.procs|
  {
    var w := g.wake[p];
    && w < |s.tokens| && !g.home[w].Gone?
    && s.tokens[w].handler.None? && s.tokens[w].coro == Some(p)
    && g.finish[p] == Thread(s.procs[p].rest, g.due[w])
  }

  ghost predicate ProcOk(s: State, g: Forecast, p: nat, cur: Option<nat>)
    requires Shape(s, g) && p < |s.procs|
  {
    var proc := s.procs[p];
    && (p in s.managed <==> !proc.complete)
    && (proc.complete ==> proc.completions == [] && g.finish[p].At?)
    && (forall c | c in proc.completions :: c < |s.tokens| && g.home[c] == Completion(p))
    && (forall i, j | 0 <= i < j < |proc.completions| :: proc.completions[i] != proc.completions[j])
    && (!proc.complete && cur != Some(p) ==> Awake(s, g, p))
  }

  /** The invariant, with exemptions for work in progress: handlers in `raw` do
      not have all their children yet, tokens in `open` are not attached yet,
      and the process `cur` is running. */
  ghost predicate Inv(s: State, g: Forecast, raw: set<nat>, open: set<nat>, cur: Option<nat>) {
    && WF(s) && Shape(s, g) && s.escaped.None?
    && (forall p | p in s.managed :: p < |s.procs|)
    && (forall t | 0 <= t < |s.tokens| :: TokenOk(s, g, t, cur))
    && (forall t | 0 <= t < |s.tokens| :: ResumesOk(s, g, t, open, cur))
    && (forall h | 0 <= h < |s.handlers| && s.handlers[h].completion.Some? ::
          s.handlers[h].completion.value < |s.tokens| && g.home[s.handlers[h].completion.value] == Output(h))
    && (forall h | 0 <= h < |s.handlers| && h !in raw :: HandlerOk(s, g, h))
    && (forall p | 0 <= p < |s.procs| :: ProcOk(s, g, p, cur))
  }

  ghost predicate Valid(s: State, g: Forecast) {
    Inv(s, g, {}, {}, None) && LogOk(s, g)
  }

  /** The log is in time order and holds one return per completed process, at
      its forecast time. */
  ghost predicate LogOk(s: State, g: Forecast) {
    && Shape(s, g)
    && (forall i | 0 <= i < |s.log| :: s.log[i].at <= s.now)
    && (forall i, j | 0 <= i < j < |s.log| :: s.log[i].at <= s.log[j].at)
    && (forall i | 0 <= i < |s.log| && s.log[i].Returned? ::
          s.log[i].proc < |s.procs| && s.procs[s.log[i].proc].complete && g.finish[s.log[i].proc] == At(s.log[i].at))
    && (forall i, j | 0 <= i < j < |s.log| && s.log[i].Returned? && s.log[j].Returned? ::
          s.log[i].proc != s.log[j].proc)
    && (forall p | 0 <= p < |s.procs| && s.procs[p].complete ::
          g.finish[p].At? && Returned(p, g.finish[p].t) in s.log)
  }

  /** `s'` has the tokens, handlers and processes of `s`, and more. Handlers
      other than those in `but` get no new child. */
  ghost predicate Grows(s: State, g: Forecast, s': State, g': Forecast, but: set<nat>)
    requires Shape(s, g) && Shape(s', g')
  {
    && s'.now == s.now && s'.log == s.log
    && s.tokens <= s'.tokens && s.handlers <= s'.handlers
    && |s.procs| <= |s'.procs|
    && (forall p | 0 <= p < |s.procs| ::
          s'.procs[p].rest == s.procs[p].rest && s'.procs[p].priority == s.procs[p].priority
          && s'.procs[p].complete == s.procs[p].complete)
    && (forall p | |s.procs| <= p < |s'.procs| :: !s'.procs[p].complete)
    && g.due <= g'.due && g.home <= g'.home && g.wake <= g'.wake && g.finish <= g'.finish
    && (forall t | |s.tokens| <= t < |s'.tokens| :: !g'.home[t].Gone?)
    && (forall t | |s.tokens| <= t < |s'.tokens| && s'.tokens[t].handler.Some? ::
          s'.tokens[t].handler.value >= |s.handlers| || s'.tokens[t].handler.value in but)
  }

  lemma GrowsTrans(s: State, g: Forecast, s1: State, g1: Forecast, s2: State, g2: Forecast, but: set<nat>)
    requires Shape(s, g) && Shape(s1, g1) && Shape(s2, g2)
    requires Grows(s, g, s1, g1, but) && Grows(s1, g1, s2, g2, but)
    ensures Grows(s, g, s2, g2, but)
  {
  }

  /** A handler that gets no new child keeps its children. */
  lemma KidsKept(s: State, g: Forecast, s': State, g': Forecast, but: set<nat>, h: nat)
    requires Shape(s, g) && Shape(s', g') && Grows(s, g, s', g', but)
    requires h < |s.handlers| && h !in but
    ensures Kids(s', g', h) == Kids(s, g, h)
    ensures Times(Kids(s', g', h), g'.due) == Times(Kids(s, g, h), g.due)
  {
    forall c: nat
      ensures c in Kids(s', g', h) <==> c in Kids(s, g, h)
    {
      if c < |s.tokens| {
        assert s'.tokens[c] == s.tokens[c] && g'.home[c] == g.home[c];
      }
    }
    assert forall c | c in Kids(s, g, h) :: g'.due[c] == g.due[c];
  }

  lemma HandlerKept(s: State, g: Forecast, s': State, g': Forecast, but: set<nat>, h: nat)
    requires Shape(s, g) && Shape(s', g') && Grows(s, g, s', g', but)
    requires h < |s.handlers| && h !in but && HandlerOk(s, g, h)
    ensures HandlerOk(s', g', h)
  {
    KidsKept(s, g, s', g', but, h);
    assert s'.handlers[h] == s.handlers[h];
    if s.handlers[h].completion.Some? {
      var c := s.handlers[h].completion.value;
      assert s'.tokens[c] == s.tokens[c] && g'.due[c] == g.due[c];
      forall k | k in Kids(s, g, h) ensures s'.tokens[k] == s.tokens[k] {}
    }
  }

  // ----- binding -----

  lemma BindProcessOk(s: State, g: Forecast, body: seq<Await>, start: nat, prio: int,
                      raw: set<nat>, open: set<nat>, cur: Option<nat>) returns (g': Forecast)
    requires Inv(s, g, raw, open, cur)
    requires (forall h | h in raw :: h < |s.handlers|) && (cur.Some? ==> cur.value < |s.procs|)
    requires forall t | t in open :: t < |s.tokens|
    ensures Inv(BindProcess(s, body, start, prio), g', raw, open, cur)
    ensures Grows(s, g, BindProcess(s, body, start, prio), g', {})
    ensures g'.finish[|s.procs|] == Thread(body, At(s.now + start))
    ensures g'.wake[|s.procs|] == |s.tokens| && g'.home[|s.tokens|] == Queued
  {
    var s' := BindProcess(s, body, start, prio);
    var id := |s.tokens|;
    var at := At(s.now + start);
    g' := Forecast(g.due + [at], g.home + [Queued], g.wake + [id], g.finish + [Thread(body, at)]);
    assert s.queue[id] == 0;
    assert Grows(s, g, s', g', {});
    forall t | 0 <= t < |s'.tokens|
      ensures TokenOk(s', g', t, cur) && ResumesOk(s', g', t, open, cur)
    {
      if t < id {
        assert TokenOk(s, g, t, cur) && ResumesOk(s, g, t, open, cur);
        assert TokenWF(s.tokens[t], |s.handlers|, |s.procs|);
      }
    }
    forall h | 0 <= h < |s'.handlers| && h !in raw ensures HandlerOk(s', g', h) {
      HandlerKept(s, g, s', g', {}, h);
    }
    forall p | 0 <= p < |s'.procs| ensures ProcOk(s', g', p, cur) {
      if p < |s.procs| {
        assert ProcOk(s, g, p, cur);
      }
    }
  }

  /** The timing of a bound await expression, given when processes return. */
  ghost function Meaning(n: Node, now: int, finish: seq<Instant>): Instant
    decreases n, 1
  {
    match n
    case Timer(relative, t, _) => At(if relative then now + t else if now >= t then now else t)
    case Process(p, ret, _) => if p < |finish| then Plus(finish[p], ret) else Never
    case Group(cond, kids, latency, _, _, _) =>
      if NodeReady(n, now) then At(now)
      else
        var ts := MeaningEach(kids, now, finish);
        Plus(if cond.AllOf? then Latest(ts, At(now)) else Earliest(ts), latency)
  }

  ghost function MeaningEach(ns: seq<Node>, now: int, finish: seq<Instant>): (ts: seq<Instant>)
    ensures |ts| == |ns|
    ensures forall i | 0 <= i < |ns| :: ts[i] == Meaning(ns[i], now, finish)
    decreases ns, 0
  {
    if ns == [] then [] else [Meaning(ns[0], now, finish)] + MeaningEach(ns[1..], now, finish)
  }

  ghost predicate NodeReady(n: Node, now: int) {
    match n
    case Timer(relative, t, _) => !relative && now >= t
    case Process(_, _, _) => false
    case Group(AllOf, kids, _, _, _, _) => forall i | 0 <= i < |kids| :: NodeReady(kids[i], now)
    case Group(AnyOf, kids, _, _, _, _) => exists i | 0 <= i < |kids| :: NodeReady(kids[i], now)
  }

  /** The processes that `n` mentions have been bound and not yet run, and its
      relative delays are not negative. */
  ghost predicate NodeOk(s: State, g: Forecast, n: Node, cur: Option<nat>)
    requires Shape(s, g)
  {
    match n
    case Timer(relative, t, _) => relative ==> t >= 0
    case Process(p, _, _) =>
      && p < |s.procs| && !s.procs[p].complete && cur != Some(p)
      && g.wake[p] < |s.tokens| && g.home[g.wake[p]].Queued?
    case Group(_, kids, _, _, _, _) => forall k | k in kids :: NodeOk(s, g, k, cur)
  }

  /** The flags of `n` tell which children are ready. */
  ghost predicate PolledOk(n: Node, now: int) {
    n.Group? ==>
      && |n.ready| == |n.kids|
      && n.remaining == |n.kids| - CountReady(n.ready)
      && (forall i | 0 <= i < |n.kids| :: n.ready[i] == NodeReady(n.kids[i], now))
      && (forall k | k in n.kids :: PolledOk(k, now))
  }

  lemma {:induction false} NodeOkGrows(s: State, g: Forecast, s': State, g': Forecast, but: set<nat>, n: Node,
                                       cur: Option<nat>)
    requires Shape(s, g) && Shape(s', g') && Grows(s, g, s', g', but) && NodeOk(s, g, n, cur)
    ensures NodeOk(s', g', n, cur)
    ensures Meaning(n, s.now, g'.finish) == Meaning(n, s.now, g.finish)
    decreases n, 1
  {
    if n.Group? {
      NodesOkGrow(s, g, s', g', but, n.kids, cur);
    }
  }

  lemma {:induction false} NodesOkGrow(s: State, g: Forecast, s': State, g': Forecast, but: set<nat>, ns: seq<Node>,
                                       cur: Option<nat>)
    requires Shape(s, g) && Shape(s', g') && Grows(s, g, s', g', but)
    requires forall n | n in ns :: NodeOk(s, g, n, cur)
    ensures forall n | n in ns :: NodeOk(s', g', n, cur)
    ensures MeaningEach(ns, s.now, g'.finish) == MeaningEach(ns, s.now, g.finish)
    decreases ns, 0
  {
    forall n | n in ns
      ensures NodeOk(s', g', n, cur)
      ensures Meaning(n, s.now, g'.finish) == Meaning(n, s.now, g.finish)
    {
      NodeOkGrows(s, g, s', g', but, n, cur);
    }
  }

  lemma GroupMeaning(e: Await, ns: seq<Node>, prio: int, now: int, finish: seq<Instant>)
    requires e.Compose? && |ns| == |e.kids|
    requires MeaningEach(ns, now, finish) == DenoteEach(e.kids, now)
    requires forall i | 0 <= i < |ns| :: NodeReady(ns[i], now) == ReadyAt(e.kids[i], now)
    ensures var n := Group(e.cond, ns, e.latency, prio, [], 0);
      Meaning(n, now, finish) == Denote(e, now) && NodeReady(n, now) == ReadyAt(e, now)
  {
  }

  lemma {:induction false} BindOk(s: State, g: Forecast, e: Await, prio: int, cur: Option<nat>) returns (g': Forecast)
    requires Inv(s, g, {}, {}, cur) && (cur.Some? ==> cur.value < |s.procs|)
    ensures var (s', n) := Bind(s, e, prio);
      && Inv(s', g', {}, {}, cur) && Grows(s, g, s', g', {}) && NodeOk(s', g', n, cur)
      && Meaning(n, s.now, g'.finish) == Denote(e, s.now)
      && NodeReady(n, s.now) == ReadyAt(e, s.now)
    decreases e, 1
  {
    hide TokenOk, ResumesOk, HandlerOk, ProcOk, BindProcess;
    match e
    case Delay(_, _) => g' := BindTimerOk(s, g, e, prio, cur);
    case Until(_, _) => g' := BindTimerOk(s, g, e, prio, cur);
    case Compose(_, kids, _, p) =>
      g' := BindAllOk(s, g, kids, Resolve(p, prio), cur);
      GroupMeaning(e, BindAll(s, kids, Resolve(p, prio)).1, Resolve(p, prio), s.now, g'.finish);
    case Sequential(_, _, _, _, _) => g' := BindSequentialOk(s, g, e, prio, cur);
  }

  lemma BindTimerOk(s: State, g: Forecast, e: Await, prio: int, cur: Option<nat>) returns (g': Forecast)
    requires Inv(s, g, {}, {}, cur) && (e.Delay? || e.Until?)
    ensures var (s', n) := Bind(s, e, prio);
      && Inv(s', g', {}, {}, cur) && Grows(s, g, s', g', {}) && NodeOk(s', g', n, cur)
      && Meaning(n, s.now, g'.finish) == Denote(e, s.now)
      && NodeReady(n, s.now) == ReadyAt(e, s.now)
  {
    g' := g;
  }

  lemma BindSequentialOk(s: State, g: Forecast, e: Await, prio: int, cur: Option<nat>) returns (g': Forecast)
    requires Inv(s, g, {}, {}, cur) && (cur.Some? ==> cur.value < |s.procs|) && e.Sequential?
    ensures var (s', n) := Bind(s, e, prio);
      && Inv(s', g', {}, {}, cur) && Grows(s, g, s', g', {}) && NodeOk(s', g', n, cur)
      && Meaning(n, s.now, g'.finish) == Denote(e, s.now)
      && NodeReady(n, s.now) == ReadyAt(e, s.now)
  {
    hide TokenOk, ResumesOk, HandlerOk, ProcOk;
    g' := BindProcessOk(s, g, e.kids, e.start, Resolve(e.prio, prio), {}, {}, cur);
  }

  lemma {:induction false} BindAllOk(s: State, g: Forecast, es: seq<Await>, prio: int, cur: Option<nat>)
    returns (g': Forecast)
    requires Inv(s, g, {}, {}, cur) && (cur.Some? ==> cur.value < |s.procs|)
    ensures var (s', ns) := BindAll(s, es, prio);
      && Inv(s', g', {}, {}, cur) && Grows(s, g, s', g', {})
      && (forall n | n in ns :: NodeOk(s', g', n, cur))
      && MeaningEach(ns, s.now, g'.finish) == DenoteEach(es, s.now)
      && (forall i | 0 <= i < |es| :: NodeReady(ns[i], s.now) == ReadyAt(es[i], s.now))
    decreases es, 0
  {
    hide TokenOk, ResumesOk, HandlerOk, ProcOk, WF, Meaning, NodeOk, Denote, ReadyAt, NodeReady, Bind;
    g' := g;
    if es != [] {
      var (s1, n) := Bind(s, es[0], prio);
      var g1 := BindOk(s, g, es[0], prio, cur);
      var (s2, ns) := BindAll(s1, es[1..], prio);
      g' := BindAllOk(s1, g1, es[1..], prio, cur);
      NodeOkGrows(s1, g1, s2, g', {}, n, cur);
      GrowsTrans(s, g, s1, g1, s2, g', {});
    }
  }

  // ----- readiness -----

  lemma {:induction false} CountReadyBounds(flags: seq<bool>)
    ensures CountReady(flags) <= |flags|
    ensures CountReady(flags) == |flags| <==> forall i | 0 <= i < |flags| :: flags[i]
    ensures CountReady(flags) == 0 <==> forall i | 0 <= i < |flags| :: !flags[i]
  {
    if flags != [] {
      CountReadyBounds(flags[1..]);
      assert forall i | 1 <= i < |flags| :: flags[i] == flags[1..][i - 1];
    }
  }

  /** Counting ready children decides the composition's condition. */
  lemma HoldsIsReady(n: Node, flags: seq<bool>, now: int)
    requires n.Group? && |flags| == |n.kids|
    requires forall i | 0 <= i < |n.kids| :: flags[i] == NodeReady(n.kids[i], now)
    ensures Holds(n.cond, |n.kids|, |n.kids| - CountReady(flags)) == NodeReady(n, now)
  {
    CountReadyBounds(flags);
  }

  lemma {:induction false} PollOk(s: State, g: Forecast, n: Node, cur: Option<nat>)
    requires Shape(s, g) && NodeIn(n, |s.procs|) && NodeOk(s, g, n, cur)
    ensures var (n', ready) := Poll(s, n);
      && ready == NodeReady(n, s.now) == NodeReady(n', s.now)
      && PolledOk(n', s.now) && NodeOk(s, g, n', cur)
      && Meaning(n', s.now, g.finish) == Meaning(n, s.now, g.finish)
    decreases n, 1
  {
    match n
    case Timer(_, _, _) =>
    case Process(_, _, _) =>
    case Group(cond, kids, latency, prio, _, _) =>
      PollAllOk(s, g, kids, cur);
      var (kids', ready) := PollAll(s, kids);
      HoldsIsReady(n, ready, s.now);
      HoldsIsReady(Poll(s, n).0, ready, s.now);
  }

  lemma {:induction false} PollAllOk(s: State, g: Forecast, ns: seq<Node>, cur: Option<nat>)
    requires Shape(s, g)
    requires forall n | n in ns :: NodeIn(n, |s.procs|) && NodeOk(s, g, n, cur)
    ensures var (ns', ready) := PollAll(s, ns);
      && (forall i | 0 <= i < |ns| :: ready[i] == NodeReady(ns[i], s.now) == NodeReady(ns'[i], s.now))
      && (forall n | n in ns' :: PolledOk(n, s.now) && NodeOk(s, g, n, cur))
      && MeaningEach(ns', s.now, g.finish) == MeaningEach(ns, s.now, g.finish)
    decreases ns, 0
  {
    if ns != [] {
      PollOk(s, g, ns[0], cur);
      PollAllOk(s, g, ns[1..], cur);
    }
  }

  // ----- suspending -----

  /** What suspending the running process `w` on a node brings about: a token
      `id`, due when the node's meaning says, and nothing else to wake `w`. */
  ghost predicate Suspended(s: State, g: Forecast, s': State, g': Forecast, id: nat, w: nat, due: Instant,
                            raw: set<nat>, open: set<nat>)
    requires Shape(s, g)
  {
    && Inv(s', g', raw, open + {id}, Some(w)) && Grows(s, g, s', g', {})
    && |s.tokens| <= id < |s'.tokens| && !g'.home[id].Gone? && g'.due[id] == due
    && s'.tokens[id].handler.None? && s'.tokens[id].coro == Some(w)
    && g'.finish == g.finish && |s'.procs| == |s.procs| && w < |s.procs| && s'.procs[w] == s.procs[w]
  }

  /** Indices in the exemptions exist. */
  ghost predicate Bounded(s: State, raw: set<nat>, open: set<nat>, w: nat) {
    && (forall h | h in raw :: h < |s.handlers|) && (forall t | t in open :: t < |s.tokens|) && w < |s.procs|
  }

  lemma SuspendTimerOk(s: State, g: Forecast, n: Node, w: nat, raw: set<nat>, open: set<nat>) returns (g': Forecast)
    requires Inv(s, g, raw, open, Some(w)) && Bounded(s, raw, open, w)
    requires n.Timer? && NodeOk(s, g, n, Some(w)) && !NodeReady(n, s.now)
    ensures var (s', id) := Suspend(s, n, Some(w));
      Suspended(s, g, s', g', id, w, Meaning(n, s.now, g.finish), raw, open)
  {
    var (s', id) := Suspend(s, n, Some(w));
    g' := g.(due := g.due + [Meaning(n, s.now, g.finish)], home := g.home + [Queued]);
    assert s.queue[id] == 0;
    assert Grows(s, g, s', g', {});
    TokenAdded(s, g, s', g', Some(w), raw, raw, open);
  }

  lemma SuspendProcessOk(s: State, g: Forecast, n: Node, w: nat, raw: set<nat>, open: set<nat>) returns (g': Forecast)
    requires Inv(s, g, raw, open, Some(w)) && Bounded(s, raw, open, w)
    requires n.Process? && NodeOk(s, g, n, Some(w))
    ensures var (s', id) := Suspend(s, n, Some(w));
      Suspended(s, g, s', g', id, w, Meaning(n, s.now, g.finish), raw, open)
  {
    var (s', id) := Suspend(s, n, Some(w));
    g' := g.(due := g.due + [Meaning(n, s.now, g.finish)], home := g.home + [Completion(n.proc)]);
    assert s.queue[id] == 0;
    assert Grows(s, g, s', g', {});
    assert ProcOk(s, g, n.proc, Some(w));
    assert s'.procs[n.proc].completions == s.procs[n.proc].completions + [id];
    TokenAdded(s, g, s', g', Some(w), raw, raw, open);
  }

  /** A new composition: its output token and its handler, no child yet. */
  lemma OpenGroupOk(s: State, g: Forecast, n: Node, w: nat, raw: set<nat>, open: set<nat>)
    returns (s2: State, g2: Forecast)
    requires Inv(s, g, raw, open, Some(w)) && Bounded(s, raw, open, w)
    requires n.Group? && PolledOk(n, s.now) && !NodeReady(n, s.now)
    ensures s2 == s.(tokens := s.tokens + [Token(n.latency, n.prio, Some(w), None, None)],
                     handlers := s.handlers + [Handler(n.cond, |n.kids|, n.remaining, Some(|s.tokens|))])
    ensures Suspended(s, g, s2, g2, |s.tokens|, w, Meaning(n, s.now, g.finish), raw + {|s.handlers|}, open)
    ensures Kids(s2, g2, |s.handlers|) == {} && g2.finish == g.finish
    ensures g2.home == g.home + [Output(|s.handlers|)]
  {
    var id, h := |s.tokens|, |s.handlers|;
    s2 := NewHandler(Allocate(s, Token(n.latency, n.prio, Some(w), None, None)),
                     Handler(n.cond, |n.kids|, n.remaining, Some(id)));
    g2 := g.(due := g.due + [Meaning(n, s.now, g.finish)], home := g.home + [Output(h)]);
    assert s.queue[id] == 0;
    assert Grows(s, g, s2, g2, {});
    TokenAdded(s, g, s2, g2, Some(w), raw, raw + {h}, open);
    forall c: nat | c < |s2.tokens| ensures s2.tokens[c].handler != Some(h) {
      if c < id { assert TokenWF(s.tokens[c], |s.handlers|, |s.procs|); }
    }
  }

  lemma OpenResumesOk(s: State, g: Forecast, t: nat, open: set<nat>, cur: Option<nat>)
    requires Shape(s, g) && t < |s.tokens| && t in open
    ensures ResumesOk(s, g, t, open, cur)
  {
  }

  lemma OldProcOk(s: State, g: Forecast, s': State, g': Forecast, p: nat, cur: Option<nat>)
    requires Shape(s, g) && Shape(s', g') && Grows(s, g, s', g', {}) && s'.managed == s.managed
    requires p < |s.procs| && ProcOk(s, g, p, cur)
    requires s'.procs[p].completions == s.procs[p].completions
      || (s'.procs[p].completions == s.procs[p].completions + [|s.tokens|] && |s.tokens| < |s'.tokens|
          && !s.procs[p].complete && g'.home[|s.tokens|] == Completion(p))
    ensures ProcOk(s', g', p, cur)
  {
    assert forall i | 0 <= i < |s.procs[p].completions| ::
      s'.procs[p].completions[i] == s.procs[p].completions[i] && s.procs[p].completions[i] in s.procs[p].completions;
  }

  lemma OldTokenOk(s: State, g: Forecast, s': State, g': Forecast, t: nat, cur: Option<nat>, open: set<nat>)
    requires WF(s) && Shape(s, g) && Shape(s', g') && Grows(s, g, s', g', {})
    requires t < |s.tokens| && s'.queue[t] == s.queue[t] && |s'.procs| == |s.procs|
    requires TokenOk(s, g, t, cur) && ResumesOk(s, g, t, open, cur)
    requires forall p | 0 <= p < |s.procs| ::
      s.procs[p].completions <= s'.procs[p].completions && g.wake[p] == g'.wake[p]
    ensures TokenOk(s', g', t, cur) && ResumesOk(s', g', t, open + {|s.tokens|}, cur)
  {
    assert TokenWF(s.tokens[t], |s.handlers|, |s.procs|);
    assert s'.tokens[t] == s.tokens[t] && g'.home[t] == g.home[t] && g'.due[t] == g.due[t];
  }

  /** Adding one well-placed token keeps the invariant. */
  lemma TokenAdded(s: State, g: Forecast, s': State, g': Forecast, cur: Option<nat>,
                   raw0: set<nat>, raw: set<nat>, open: set<nat>)
    requires Inv(s, g, raw0, open, cur) && raw0 <= raw
    requires forall h | h in raw && h !in raw0 :: h >= |s.handlers|
    requires WF(s') && Shape(s', g') && Grows(s, g, s', g', {})
    requires s'.managed == s.managed && s'.escaped == s.escaped && |s'.procs| == |s.procs|
    requires |s'.tokens| == |s.tokens| + 1
    requires forall t | 0 <= t < |s.tokens| :: s'.queue[t] == s.queue[t]
    requires TokenOk(s', g', |s.tokens|, cur)
    requires forall h | |s.handlers| <= h < |s'.handlers| ::
      h in raw && s'.handlers[h].completion == Some(|s.tokens|) && g'.home[|s.tokens|] == Output(h)
    requires forall p | 0 <= p < |s.procs| ::
      && s.procs[p].completions <= s'.procs[p].completions
      && (s'.procs[p].completions == s.procs[p].completions
          || (s'.procs[p].completions == s.procs[p].completions + [|s.tokens|]
              && !s.procs[p].complete && g'.home[|s.tokens|] == Completion(p)))
    ensures Inv(s', g', raw, open + {|s.tokens|}, cur)
  {
    hide ResumesOk, HandlerOk, ProcOk;
    var id, open' := |s.tokens|, open + {|s.tokens|};
    forall t | 0 <= t < |s'.tokens|
      ensures TokenOk(s', g', t, cur) && ResumesOk(s', g', t, open', cur)
    {
      if t < id {
        assert TokenOk(s, g, t, cur) && ResumesOk(s, g, t, open, cur);
        OldTokenOk(s, g, s', g', t, cur, open);
      } else {
        OpenResumesOk(s', g', t, open', cur);
      }
    }
    forall h | 0 <= h < |s'.handlers| && h !in raw ensures HandlerOk(s', g', h) {
      assert h < |s.handlers| && h !in raw0;
      HandlerKept(s, g, s', g', {}, h);
    }
    forall p | 0 <= p < |s'.procs| ensures ProcOk(s', g', p, cur) {
      assert ProcOk(s, g, p, cur);
      OldProcOk(s, g, s', g', p, cur);
    }
    forall h | 0 <= h < |s'.handlers| && s'.handlers[h].completion.Some?
      ensures s'.handlers[h].completion.value < |s'.tokens| && g'.home[s'.handlers[h].completion.value] == Output(h)
    {
      if h < |s.handlers| { assert s'.handlers[h] == s.handlers[h]; }
    }
  }

  /** The due times of the children that are not ready. */
  ghost function PendingTimes(ns: seq<Node>, ready: seq<bool>, now: int, finish: seq<Instant>): set<Instant>
    requires |ready| == |ns|
  {
    if ns == [] then {}
    else (if ready[0] then {} else {Meaning(ns[0], now, finish)}) + PendingTimes(ns[1..], ready[1..], now, finish)
  }

  /** A token becomes a child of a handler that is still being set up. */
  lemma AttachOk(s: State, g: Forecast, id: nat, h: nat, w: nat, raw: set<nat>, open: set<nat>)
    requires Inv(s, g, raw, open + {id}, Some(w)) && h in raw && h < |s.handlers|
    requires id < |s.tokens| && id !in open && s.tokens[id].handler.None? && !g.home[id].Gone?
    requires s.tokens[id].coro == Some(w)
    ensures var s' := SetToken(s, id, s.tokens[id].(handler := Some(h)));
      && Inv(s', g, raw, open, Some(w)) && Kids(s', g, h) == Kids(s, g, h) + {id}
  {
    assert TokenWF(s.tokens[id], |s.handlers|, |s.procs|);
    var s' := SetToken(s, id, s.tokens[id].(handler := Some(h)));
    forall t | 0 <= t < |s'.tokens|
      ensures TokenOk(s', g, t, Some(w)) && ResumesOk(s', g, t, open, Some(w))
    {
      assert TokenOk(s, g, t, Some(w)) && ResumesOk(s, g, t, open + {id}, Some(w));
    }
    forall h' | 0 <= h' < |s'.handlers| && h' !in raw ensures HandlerOk(s', g, h') {
      assert HandlerOk(s, g, h');
      assert Kids(s', g, h') == Kids(s, g, h');
    }
    forall p | 0 <= p < |s'.procs| ensures ProcOk(s', g, p, Some(w)) {
      assert ProcOk(s, g, p, Some(w));
      if !s.procs[p].complete && p != w { assert g.wake[p] != id; }
    }
  }

  /** The pending times are those of the children that are not ready. */
  lemma {:induction false} PendingTimesMeaning(ns: seq<Node>, ready: seq<bool>, now: int, finish: seq<Instant>)
    requires |ready| == |ns|
    ensures var ts := MeaningEach(ns, now, finish);
      var ps := PendingTimes(ns, ready, now, finish);
      && (forall i | 0 <= i < |ns| && !ready[i] :: ts[i] in ps)
      && (forall t | t in ps :: t in ts)
  {
    if ns != [] {
      PendingTimesMeaning(ns[1..], ready[1..], now, finish);
      var ts, ts' := MeaningEach(ns, now, finish), MeaningEach(ns[1..], now, finish);
      assert ts == [ts[0]] + ts';
      assert forall i | 1 <= i < |ns| :: ready[i] == ready[1..][i - 1] && ts[i] == ts'[i - 1];
    }
  }

  lemma {:induction false} MeaningInflates(s: State, g: Forecast, n: Node, raw: set<nat>, open: set<nat>,
                                           cur: Option<nat>)
    requires Inv(s, g, raw, open, cur)
    requires NodeOk(s, g, n, cur)
    ensures Le(At(s.now), Meaning(n, s.now, g.finish))
    decreases n
  {
    match n
    case Timer(_, _, _) =>
    case Process(p, _, _) =>
      assert ProcOk(s, g, p, cur) && TokenOk(s, g, g.wake[p], cur);
      ThreadInflates(s.procs[p].rest, g.due[g.wake[p]]);
    case Group(cond, kids, _, _, _, _) =>
      var ts := MeaningEach(kids, s.now, g.finish);
      forall i | 0 <= i < |kids| ensures Le(At(s.now), ts[i]) {
        MeaningInflates(s, g, kids[i], raw, open, cur);
      }
      LatestBounds(ts, At(s.now));
      EarliestIsLeast(ts);
  }

  lemma {:induction false} ReadyMeaning(n: Node, now: int, finish: seq<Instant>)
    requires NodeReady(n, now)
    ensures Meaning(n, now, finish) == At(now)
  {
  }

  /** The latest (earliest) of all children is that of the pending ones `ps`,
      since the others are due at once. */
  lemma AggregatesPending(cond: Condition, ts: seq<Instant>, ready: seq<bool>, ps: set<Instant>, now: int)
    requires |ready| == |ts|
    requires forall i | 0 <= i < |ts| :: Le(At(now), ts[i]) && (ready[i] ==> ts[i] == At(now))
    requires forall x | x in ps :: x in ts
    requires forall i | 0 <= i < |ts| && !ready[i] :: ts[i] in ps
    requires cond.AllOf? ==> exists i | 0 <= i < |ts| :: !ready[i]
    requires cond.AnyOf? ==> forall i | 0 <= i < |ts| :: !ready[i]
    ensures Aggregates(cond, ps, if cond.AllOf? then Latest(ts, At(now)) else Earliest(ts))
  {
    LatestBounds(ts, At(now));
    EarliestIsLeast(ts);
    if cond.AllOf? {
      var i :| 0 <= i < |ts| && !ready[i];
      assert ts[i] in ps && Le(ts[i], Latest(ts, At(now)));
    }
  }

  /** No child is due in the past, and those that are ready are due now. */
  lemma ChildTimes(s: State, g: Forecast, n: Node, raw: set<nat>, open: set<nat>, cur: Option<nat>)
    requires Inv(s, g, raw, open, cur) && n.Group? && NodeOk(s, g, n, cur) && PolledOk(n, s.now)
    ensures forall i | 0 <= i < |n.kids| ::
      Le(At(s.now), Meaning(n.kids[i], s.now, g.finish))
      && (n.ready[i] ==> Meaning(n.kids[i], s.now, g.finish) == At(s.now))
  {
    hide Inv, Meaning;
    forall i | 0 <= i < |n.kids|
      ensures Le(At(s.now), Meaning(n.kids[i], s.now, g.finish))
      ensures n.ready[i] ==> Meaning(n.kids[i], s.now, g.finish) == At(s.now)
    {
      MeaningInflates(s, g, n.kids[i], raw, open, cur);
      if n.ready[i] { ReadyMeaning(n.kids[i], s.now, g.finish); }
    }
  }

  /** A composition that is not ready is due when its pending children say. */
  lemma GroupAggregates(s: State, g: Forecast, n: Node, raw: set<nat>, open: set<nat>, cur: Option<nat>)
    requires Inv(s, g, raw, open, cur)
    requires n.Group? && NodeOk(s, g, n, cur) && PolledOk(n, s.now) && !NodeReady(n, s.now)
    ensures Aggregates(n.cond, PendingTimes(n.kids, n.ready, s.now, g.finish),
                       Minus(Meaning(n, s.now, g.finish), n.latency))
  {
    hide Inv, NodeOk, Meaning, Aggregates, Latest, Earliest;
    var ts := MeaningEach(n.kids, s.now, g.finish);
    var ps := PendingTimes(n.kids, n.ready, s.now, g.finish);
    PendingTimesMeaning(n.kids, n.ready, s.now, g.finish);
    ChildTimes(s, g, n, raw, open, cur);
    AggregatesPending(n.cond, ts, n.ready, ps, s.now);
    UnreadyMeaning(n, s.now, g.finish);
  }

  /** When a composition that is not ready is due, without its latency. */
  lemma UnreadyMeaning(n: Node, now: int, finish: seq<Instant>)
    requires n.Group? && !NodeReady(n, now)
    ensures var ts := MeaningEach(n.kids, now, finish);
      Minus(Meaning(n, now, finish), n.latency) == if n.cond.AllOf? then Latest(ts, At(now)) else Earliest(ts)
  {
  }

  /** The children of `h` grew by `count` tokens of the process `w`, due at `due`. */
  ghost predicate Attached(s: State, g: Forecast, s': State, g': Forecast, h: nat, w: nat, count: int,
                           due: set<Instant>)
    requires Shape(s, g) && Shape(s', g')
  {
    && Grows(s, g, s', g', {h}) && g'.finish == g.finish
    && |s'.procs| == |s.procs| && w < |s.procs| && s'.procs[w] == s.procs[w]
    && Kids(s, g, h) <= Kids(s', g', h)
    && |Kids(s', g', h)| == |Kids(s, g, h)| + count
    && Times(Kids(s', g', h), g'.due) == Times(Kids(s, g, h), g.due) + due
    && (forall k | k in Kids(s', g', h) - Kids(s, g, h) :: k >= |s.tokens| && s'.tokens[k].coro == Some(w))
  }

  lemma AttachedNone(s: State, g: Forecast, h: nat, w: nat)
    requires Shape(s, g) && w < |s.procs|
    ensures Attached(s, g, s, g, h, w, 0, {})
  {
  }

  /** What a growing state keeps for the nodes that are still to be suspended. */
  lemma AttachedKeeps(s: State, g: Forecast, s': State, g': Forecast, h: nat, w: nat, count: int, due: set<Instant>)
    requires Shape(s, g) && Shape(s', g') && Attached(s, g, s', g', h, w, count, due)
    ensures Grows(s, g, s', g', {h}) && s'.now == s.now && g'.finish == g.finish
    ensures |s'.procs| == |s.procs| && |s'.tokens| >= |s.tokens| && |s'.handlers| >= |s.handlers|
    ensures w < |s.procs| && s'.procs[w] == s.procs[w]
  {
  }

  lemma AttachedTrans(s: State, g: Forecast, s1: State, g1: Forecast, s2: State, g2: Forecast, h: nat, w: nat,
                      a: int, b: int, da: set<Instant>, db: set<Instant>)
    requires Shape(s, g) && Shape(s1, g1) && Shape(s2, g2)
    requires Attached(s, g, s1, g1, h, w, a, da) && Attached(s1, g1, s2, g2, h, w, b, db)
    ensures Attached(s, g, s2, g2, h, w, a + b, da + db)
  {
    GrowsTrans(s, g, s1, g1, s2, g2, {h});
    assert forall k | k in Kids(s1, g1, h) :: s2.tokens[k] == s1.tokens[k];
  }

  lemma SuspendedKeeps(s: State, g: Forecast, s': State, g': Forecast, id: nat, w: nat, due: Instant,
                       raw: set<nat>, open: set<nat>)
    requires Shape(s, g) && Suspended(s, g, s', g', id, w, due, raw, open)
    ensures Shape(s', g') && WF(s') && Grows(s, g, s', g', {}) && g'.finish == g.finish && |s'.procs| == |s.procs|
    ensures |s.tokens| <= id < |s'.tokens| && !g'.home[id].Gone? && g'.due[id] == due
    ensures s'.tokens[id].handler.None? && s'.tokens[id].coro == Some(w)
    ensures w < |s.procs| && s'.procs[w] == s.procs[w]
  {
  }

  /** Suspending on a node that is not ready yields a token that is due exactly
      when the node's meaning says. */
  lemma {:induction false} SuspendOk(s: State, g: Forecast, n: Node, w: nat, raw: set<nat>, open: set<nat>)
    returns (g': Forecast)
    requires Inv(s, g, raw, open, Some(w)) && Bounded(s, raw, open, w)
    requires NodeIn(n, |s.procs|) && Polled(n)
    requires NodeOk(s, g, n, Some(w)) && PolledOk(n, s.now) && !NodeReady(n, s.now)
    ensures var (s', id) := Suspend(s, n, Some(w));
      Suspended(s, g, s', g', id, w, Meaning(n, s.now, g.finish), raw, open)
    decreases n, 1
  {
    hide TokenOk, ResumesOk, HandlerOk, ProcOk, Suspended, Attached, Grows, Kids, PendingTimes, Meaning, WF, NodeReady;
    match n
    case Timer(_, _, _) => g' := SuspendTimerOk(s, g, n, w, raw, open);
    case Process(_, _, _) => g' := SuspendProcessOk(s, g, n, w, raw, open);
    case Group(cond, kids, latency, prio, ready, remaining) =>
      var id, h := |s.tokens|, |s.handlers|;
      var s2, g2 := OpenGroupOk(s, g, n, w, raw, open);
      SuspendedKeeps(s, g, s2, g2, id, w, Meaning(n, s.now, g.finish), raw + {h}, open);
      NodesOkGrow(s, g, s2, g2, {}, kids, Some(w));
      var s' := SuspendAll(s2, kids, ready, Some(w), h);
      g' := SuspendAllOk(s2, g2, kids, ready, w, h, raw + {h}, open + {id});
      assert Suspend(s, n, Some(w)) == (s', id);
      CloseGroupOk(s, g, n, s2, g2, s', g', w, raw, open);
  }

  /** Once all its pending children are attached, the handler is in order. */
  lemma CloseHandlerOk(s: State, g: Forecast, n: Node, s2: State, g2: Forecast, s': State, g': Forecast,
                       w: nat, raw: set<nat>, open: set<nat>)
    requires Inv(s, g, raw, open, Some(w)) && Shape(s2, g2) && Shape(s', g')
    requires n.Group? && NodeOk(s, g, n, Some(w)) && PolledOk(n, s.now) && !NodeReady(n, s.now)
    requires s2 == s.(tokens := s.tokens + [Token(n.latency, n.prio, Some(w), None, None)],
                      handlers := s.handlers + [Handler(n.cond, |n.kids|, n.remaining, Some(|s.tokens|))])
    requires g2.due[|s.tokens|] == Meaning(n, s.now, g.finish) && g2.finish == g.finish
    requires Attached(s2, g2, s', g', |s.handlers|, w, |n.kids| - CountReady(n.ready),
                      PendingTimes(n.kids, n.ready, s.now, g2.finish))
    requires Kids(s2, g2, |s.handlers|) == {}
    ensures |s.handlers| < |s'.handlers| && HandlerOk(s', g', |s.handlers|)
  {
    hide Attached, PendingTimes, Meaning, NodeReady, Kids, NodeOk, Inv, HandlerOk, Grows;
    var id, h := |s.tokens|, |s.handlers|;
    GroupAggregates(s, g, n, raw, open, Some(w));
    HoldsIsReady(n, n.ready, s.now);
    AttachedKeeps(s2, g2, s', g', h, w, |n.kids| - CountReady(n.ready),
                  PendingTimes(n.kids, n.ready, s.now, g2.finish));
    ClosedHandlerOk(s2, g2, s', g', h, id, w, n);
  }

  /** Once all its pending children are attached, the composition is complete. */
  lemma CloseGroupOk(s: State, g: Forecast, n: Node, s2: State, g2: Forecast, s': State, g': Forecast,
                     w: nat, raw: set<nat>, open: set<nat>)
    requires Inv(s, g, raw, open, Some(w))
    requires n.Group? && NodeOk(s, g, n, Some(w)) && PolledOk(n, s.now) && !NodeReady(n, s.now)
    requires s2 == s.(tokens := s.tokens + [Token(n.latency, n.prio, Some(w), None, None)],
                      handlers := s.handlers + [Handler(n.cond, |n.kids|, n.remaining, Some(|s.tokens|))])
    requires Suspended(s, g, s2, g2, |s.tokens|, w, Meaning(n, s.now, g.finish), raw + {|s.handlers|}, open)
    requires Inv(s', g', raw + {|s.handlers|}, open + {|s.tokens|}, Some(w))
    requires Attached(s2, g2, s', g', |s.handlers|, w, |n.kids| - CountReady(n.ready),
                      PendingTimes(n.kids, n.ready, s.now, g2.finish))
    requires Kids(s2, g2, |s.handlers|) == {}
    ensures Suspended(s, g, s', g', |s.tokens|, w, Meaning(n, s.now, g.finish), raw, open)
  {
    hide Attached, PendingTimes, Meaning, NodeReady, Kids, NodeOk, HandlerOk, Grows;
    var id, h, count := |s.tokens|, |s.handlers|, |n.kids| - CountReady(n.ready);
    var due := Meaning(n, s.now, g.finish);
    assert Shape(s', g');
    SuspendedKeeps(s, g, s2, g2, id, w, due, raw + {h}, open);
    hide Inv, Suspended;
    CloseHandlerOk(s, g, n, s2, g2, s', g', w, raw, open);
    CloseRaw(s', g', raw, open + {id}, h, w);
    AttachedKeeps(s2, g2, s', g', h, w, count, PendingTimes(n.kids, n.ready, s.now, g2.finish));
    SuspendGrows(s, g, s2, g2, s', g', h);
    GrownToken(s2, g2, s', g', h, id);
    SuspendedAgain(s, g, s', g', id, w, due, raw, open);
  }

  lemma SuspendedAgain(s: State, g: Forecast, s': State, g': Forecast, id: nat, w: nat, due: Instant,
                       raw: set<nat>, open: set<nat>)
    requires Shape(s, g) && Shape(s', g') && Inv(s', g', raw, open + {id}, Some(w)) && Grows(s, g, s', g', {})
    requires |s.tokens| <= id < |s'.tokens| && !g'.home[id].Gone? && g'.due[id] == due
    requires s'.tokens[id].handler.None? && s'.tokens[id].coro == Some(w)
    requires g'.finish == g.finish && |s'.procs| == |s.procs| && w < |s.procs| && s'.procs[w] == s.procs[w]
    ensures Suspended(s, g, s', g', id, w, due, raw, open)
  {
    hide Inv, Grows;
  }

  lemma GrownToken(s: State, g: Forecast, s': State, g': Forecast, h: nat, id: nat)
    requires Shape(s, g) && Shape(s', g') && Grows(s, g, s', g', {h}) && id < |s.tokens|
    ensures id < |s'.tokens| && s'.tokens[id] == s.tokens[id] && g'.home[id] == g.home[id] && g'.due[id] == g.due[id]
  {
  }

  /** A handler that has all its children needs no exemption. */
  lemma CloseRaw(s: State, g: Forecast, raw: set<nat>, open: set<nat>, h: nat, w: nat)
    requires Inv(s, g, raw + {h}, open, Some(w)) && h < |s.handlers| && HandlerOk(s, g, h)
    ensures Inv(s, g, raw, open, Some(w))
  {
    hide TokenOk, ResumesOk, HandlerOk, ProcOk;
  }

  lemma ClosedHandlerOk(s2: State, g2: Forecast, s': State, g': Forecast, h: nat, id: nat, w: nat, n: Node)
    requires Shape(s2, g2) && Shape(s', g') && h < |s2.handlers| && id < |s2.tokens|
    requires n.Group? && |n.ready| == |n.kids| && n.remaining == |n.kids| - CountReady(n.ready)
    requires s2.handlers[h] == Handler(n.cond, |n.kids|, n.remaining, Some(id))
    requires s2.tokens[id].time == n.latency && s2.tokens[id].coro == Some(w)
    requires !Holds(n.cond, |n.kids|, n.remaining)
    requires Attached(s2, g2, s', g', h, w, |n.kids| - CountReady(n.ready),
                      PendingTimes(n.kids, n.ready, s2.now, g2.finish))
    requires Kids(s2, g2, h) == {}
    requires Aggregates(n.cond, PendingTimes(n.kids, n.ready, s2.now, g2.finish), Minus(g2.due[id], n.latency))
    ensures HandlerOk(s', g', h)
  {
    CountReadyBounds(n.ready);
    assert s'.handlers[h] == s2.handlers[h] && s'.tokens[id] == s2.tokens[id] && g'.due[id] == g2.due[id];
    assert Times(Kids(s2, g2, h), g2.due) == {};
  }

  lemma SuspendGrows(s: State, g: Forecast, s2: State, g2: Forecast, s': State, g': Forecast, h: nat)
    requires Shape(s, g) && Shape(s2, g2) && Shape(s', g')
    requires Grows(s, g, s2, g2, {}) && Grows(s2, g2, s', g', {h})
    requires h >= |s.handlers|
    ensures Grows(s, g, s', g', {})
  {
  }

  lemma AttachSuspended(s: State, g: Forecast, s1: State, g1: Forecast, id: nat, w: nat, h: nat, due: Instant,
                        raw: set<nat>, open: set<nat>)
    requires Inv(s, g, raw, open, Some(w)) && Bounded(s, raw, open, w) && h in raw
    requires Suspended(s, g, s1, g1, id, w, due, raw, open)
    ensures WF(s1) && TokenWF(s1.tokens[id].(handler := Some(h)), |s1.handlers|, |s1.procs|)
    ensures var s' := SetToken(s1, id, s1.tokens[id].(handler := Some(h)));
      Inv(s', g1, raw, open, Some(w)) && Attached(s, g, s', g1, h, w, 1, {due})
  {
    hide TokenOk, ResumesOk, HandlerOk, ProcOk, Kids, Times;
    assert TokenWF(s1.tokens[id], |s1.handlers|, |s1.procs|);
    KidsKept(s, g, s1, g1, {}, h);
    AttachOk(s1, g1, id, h, w, raw, open);
    hide Inv;
    AttachTimes(s, g, s1, g1, id, h, w);
  }

  /** One more child: one more due time. */
  lemma AttachTimes(s: State, g: Forecast, s1: State, g1: Forecast, id: nat, h: nat, w: nat)
    requires Shape(s, g) && Shape(s1, g1) && WF(s1) && Grows(s, g, s1, g1, {}) && g1.finish == g.finish
    requires |s.tokens| <= id < |s1.tokens| && TokenWF(s1.tokens[id].(handler := Some(h)), |s1.handlers|, |s1.procs|)
    requires Kids(s1, g1, h) == Kids(s, g, h) && Times(Kids(s1, g1, h), g1.due) == Times(Kids(s, g, h), g.due)
    requires |s1.procs| == |s.procs| && w < |s.procs| && s1.procs[w] == s.procs[w] && s1.tokens[id].coro == Some(w)
    requires s1.tokens[id].handler.None?
    requires var s' := SetToken(s1, id, s1.tokens[id].(handler := Some(h)));
      Shape(s', g1) && Kids(s', g1, h) == Kids(s1, g1, h) + {id}
    ensures Attached(s, g, SetToken(s1, id, s1.tokens[id].(handler := Some(h))), g1, h, w, 1, {g1.due[id]})
  {
    var ks := Kids(s1, g1, h);
    assert id !in ks;
    assert Times(ks + {id}, g1.due) == Times(ks, g1.due) + {g1.due[id]};
    hide Kids, Times;
    var s' := SetToken(s1, id, s1.tokens[id].(handler := Some(h)));
    assert Grows(s, g, s', g1, {h});
  }

  lemma {:induction false} SuspendOneOk(s: State, g: Forecast, n: Node, w: nat, h: nat, raw: set<nat>, open: set<nat>)
    returns (g': Forecast)
    requires Inv(s, g, raw, open, Some(w)) && Bounded(s, raw, open, w) && h in raw
    requires NodeIn(n, |s.procs|) && Polled(n)
    requires NodeOk(s, g, n, Some(w)) && PolledOk(n, s.now) && !NodeReady(n, s.now)
    ensures var (s1, id) := Suspend(s, n, Some(w));
      && TokenWF(s1.tokens[id].(handler := Some(h)), |s1.handlers|, |s1.procs|)
      && var s' := SetToken(s1, id, s1.tokens[id].(handler := Some(h)));
      && Inv(s', g', raw, open, Some(w))
      && Attached(s, g, s', g', h, w, 1, {Meaning(n, s.now, g.finish)})
    decreases n, 2
  {
    var (s1, id) := Suspend(s, n, Some(w));
    g' := SuspendOk(s, g, n, w, raw, open);
    AttachSuspended(s, g, s1, g', id, w, h, Meaning(n, s.now, g.finish), raw, open);
  }

  lemma {:induction false} SuspendAllOk(s: State, g: Forecast, ns: seq<Node>, ready: seq<bool>, w: nat, h: nat,
                                       raw: set<nat>, open: set<nat>) returns (g': Forecast)
    requires Inv(s, g, raw, open, Some(w)) && Bounded(s, raw, open, w)
    requires h in raw && |ready| == |ns|
    requires forall n | n in ns ::
      NodeIn(n, |s.procs|) && Polled(n) && NodeOk(s, g, n, Some(w)) && PolledOk(n, s.now)
    requires forall i | 0 <= i < |ns| :: ready[i] == NodeReady(ns[i], s.now)
    ensures var s' := SuspendAll(s, ns, ready, Some(w), h);
      && Inv(s', g', raw, open, Some(w))
      && Attached(s, g, s', g', h, w, |ns| - CountReady(ready), PendingTimes(ns, ready, s.now, g.finish))
    decreases ns, 0
  {
    hide TokenOk, ResumesOk, HandlerOk, ProcOk, Suspend, Grows, Kids, WF;
    g' := g;
    if ns == [] {
      AttachedNone(s, g, h, w);
    } else if ready[0] {
      g' := SuspendAllOk(s, g, ns[1..], ready[1..], w, h, raw, open);
    } else {
      var (s1, id) := Suspend(s, ns[0], Some(w));
      var g1 := SuspendOneOk(s, g, ns[0], w, h, raw, open);
      var s2 := SetToken(s1, id, s1.tokens[id].(handler := Some(h)));
      AttachedKeeps(s, g, s2, g1, h, w, 1, {Meaning(ns[0], s.now, g.finish)});
      NodesOkGrow(s, g, s2, g1, {h}, ns, Some(w));
      g' := SuspendAllOk(s2, g1, ns[1..], ready[1..], w, h, raw, open);
      var s' := SuspendAll(s2, ns[1..], ready[1..], Some(w), h);
      AttachedTrans(s, g, s2, g1, s', g', h, w, 1, |ns| - 1 - CountReady(ready[1..]),
                    {Meaning(ns[0], s.now, g.finish)}, PendingTimes(ns[1..], ready[1..], s.now, g.finish));
    }
  }
}
