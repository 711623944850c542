/** One step of the environment keeps the forecast: no due time ever changes,
    whichever minimal token is popped. */
module KernelSteps {
  import opened Options
  import opened AwaitAlgebra
  import opened KernelState
  import opened KernelInvariant

  /** No live token is due before every queued token. */
  lemma {:induction false} DueNotBefore(s: State, g: Forecast, from: int, t: nat)
    requires Inv(s, g, {}, {}, None)
    requires forall q | q in s.queue :: from <= s.tokens[q].time
    requires t < |s.tokens| && !g.home[t].Gone?
    ensures Le(At(from), g.due[t])
    decreases |s.tokens| - t
  {
    assert TokenOk(s, g, t, None);
    match g.home[t]
    case Queued => assert t in s.queue;
    case Output(h) =>
      assert HandlerOk(s, g, h);
      var ks := Kids(s, g, h);
      forall x | x in Times(ks, g.due) ensures Le(At(from), x) {
        var k :| k in ks && g.due[k] == x;
        DueNotBefore(s, g, from, k);
      }
    case Completion(p) =>
      assert ProcOk(s, g, p, None) && Awake(s, g, p);
      var w := g.wake[p];
      assert TokenOk(s, g, w, None);
      if g.home[w].Queued? {
        assert w in s.queue;
      } else {
        DueNotBefore(s, g, from, w);
      }
      ThreadInflates(s.procs[p].rest, g.due[w]);
  }

  /** The state and forecast after popping `t`, before it is processed. */
  function Popped(s: State, t: nat): State
    requires t < |s.tokens|
  {
    var now := if s.tokens[t].time > s.now then s.tokens[t].time else s.now;
    s.(queue := s.queue - multiset{t}, now := now, log := s.log + [Stepped(t, now)])
  }

  function Spent(g: Forecast, t: nat): Forecast
    requires t < |g.home|
  {
    g.(home := g.home[t := Gone])
  }

  lemma TopIsEarliest(s: State, g: Forecast, t: nat)
    requires Inv(s, g, {}, {}, None) && IsTop(s, t)
    ensures s.now <= s.tokens[t].time && g.home[t].Queued? && g.due[t] == At(s.tokens[t].time)
    ensures forall q | q in s.queue :: s.tokens[t].time <= s.tokens[q].time
  {
    assert TokenOk(s, g, t, None);
    forall q | q in s.queue ensures s.tokens[t].time <= s.tokens[q].time {
      assert !After(s.tokens[t], s.tokens[q]);
    }
  }

  lemma PopTokenOk(s: State, g: Forecast, t: nat, i: nat)
    requires Valid(s, g) && IsTop(s, t) && i < |s.tokens|
    ensures var cur := if s.tokens[t].handler.None? then s.tokens[t].coro else None;
      TokenOk(Popped(s, t), Spent(g, t), i, cur) && ResumesOk(Popped(s, t), Spent(g, t), i, {}, cur)
  {
    hide HandlerOk, LogOk;
    TopIsEarliest(s, g, t);
    assert TokenOk(s, g, t, None) && ResumesOk(s, g, t, {}, None);
    assert TokenOk(s, g, i, None) && ResumesOk(s, g, i, {}, None);
    if g.home[i].Queued? { assert i in s.queue; }
    if g.home[i].Completion? {
      assert ProcOk(s, g, g.home[i].p, None) && Awake(s, g, g.home[i].p);
    }
  }

  lemma PopOk(s: State, g: Forecast, t: nat)
    requires Valid(s, g) && IsTop(s, t)
    ensures var tk := s.tokens[t];
      && Inv(Popped(s, t), Spent(g, t),
             if tk.handler.Some? then {tk.handler.value} else {}, {},
             if tk.handler.None? then tk.coro else None)
      && LogOk(Popped(s, t), Spent(g, t))
      && Popped(s, t).now == tk.time
  {
    hide ProcOk, LogOk;
    TopIsEarliest(s, g, t);
    var tk := s.tokens[t];
    var raw: set<nat> := if tk.handler.Some? then {tk.handler.value} else {};
    var cur := if tk.handler.None? then tk.coro else None;
    var s1, g1 := Popped(s, t), Spent(g, t);
    assert TokenOk(s, g, t, None) && ResumesOk(s, g, t, {}, None);
    forall i | 0 <= i < |s1.tokens| ensures TokenOk(s1, g1, i, cur) && ResumesOk(s1, g1, i, {}, cur) {
      PopTokenOk(s, g, t, i);
    }
    forall h | 0 <= h < |s1.handlers| && h !in raw ensures HandlerOk(s1, g1, h) {
      assert HandlerOk(s, g, h);
      PopHandlerOk(s, g, t, h);
    }
    forall p | 0 <= p < |s1.procs| ensures ProcOk(s1, g1, p, cur) {
      PopProcOk(s, g, t, p);
    }
    PopLogged(s, g, t);
  }

  lemma PopHandlerOk(s: State, g: Forecast, t: nat, h: nat)
    requires Shape(s, g) && t < |s.tokens| && h < |s.handlers| && s.tokens[t].handler != Some(h)
    requires HandlerOk(s, g, h)
    ensures HandlerOk(Popped(s, t), Spent(g, t), h)
  {
    assert Kids(Popped(s, t), Spent(g, t), h) == Kids(s, g, h);
  }

  lemma PopProcOk(s: State, g: Forecast, t: nat, p: nat)
    requires Valid(s, g) && IsTop(s, t) && p < |s.procs|
    ensures ProcOk(Popped(s, t), Spent(g, t), p, if s.tokens[t].handler.None? then s.tokens[t].coro else None)
  {
    hide HandlerOk, LogOk;
    TopIsEarliest(s, g, t);
    assert ProcOk(s, g, p, None);
  }

  lemma PopLogged(s: State, g: Forecast, t: nat)
    requires LogOk(s, g) && t < |s.tokens|
    ensures LogOk(Popped(s, t), Spent(g, t))
  {
  }

  // ----- a token with a handler -----

  /** `h` has lost a child that it has not yet taken note of, and waits on. */
  ghost predicate Waits(s: State, g: Forecast, h: nat)
    requires Shape(s, g) && h < |s.handlers|
  {
    var hd := s.handlers[h];
    var ks := Kids(s, g, h);
    && hd.remaining - 1 == |ks| < hd.total
    && (hd.completion.Some? <==> !Holds(hd.cond, hd.total, hd.remaining - 1))
    && (hd.completion.Some? ==>
          var c := hd.completion.value;
          && c < |s.tokens| && s.tokens[c].time >= 0
          && (forall k | k in ks :: k > c && s.tokens[k].coro == s.tokens[c].coro)
          && Aggregates(hd.cond, Times(ks, g.due), Minus(g.due[c], s.tokens[c].time)))
  }

  /** `h` has lost its child `t`, and that completes the composition. */
  ghost predicate Fires(s: State, g: Forecast, h: nat, t: nat)
    requires Shape(s, g) && h < |s.handlers| && t < |s.tokens|
  {
    var hd := s.handlers[h];
    && hd.remaining - 1 == |Kids(s, g, h)| < hd.total
    && hd.completion.Some? && Holds(hd.cond, hd.total, hd.remaining - 1)
    && var c := hd.completion.value;
       && c < |s.tokens| && c != t && s.tokens[c].time >= 0
       && s.tokens[t].coro == s.tokens[c].coro
       && g.due[c] == At(s.tokens[c].time + s.tokens[t].time)
  }

  /** The token in hand is the earliest of its composition's. */
  lemma KidsNotBefore(s: State, g: Forecast, t: nat, h: nat)
    requires Valid(s, g) && IsTop(s, t)
    ensures forall x | x in Times(Kids(s, g, h), g.due) :: Le(At(s.tokens[t].time), x)
  {
    hide ResumesOk, ProcOk, LogOk, HandlerOk;
    TopIsEarliest(s, g, t);
    forall x | x in Times(Kids(s, g, h), g.due) ensures Le(At(s.tokens[t].time), x) {
      var k :| k in Kids(s, g, h) && g.due[k] == x;
      DueNotBefore(s, g, s.tokens[t].time, k);
    }
  }

  /** Where an earliest child `t` is taken away: either its time completes the
      composition, or the rest of the children give the same time as before. */
  lemma EarliestTaken(cond: Condition, ks: set<nat>, t: nat, due: seq<Instant>, total: int, time: int, last: Instant)
    requires t in ks && |ks| <= total && (forall k | k in ks :: k < |due|)
    requires due[t] == At(time) && (forall x | x in Times(ks, due) :: Le(At(time), x))
    requires Aggregates(cond, Times(ks, due), last) && !Holds(cond, total, |ks|)
    ensures |ks - {t}| == |ks| - 1
    ensures Holds(cond, total, |ks| - 1) ==> last == At(time)
    ensures !Holds(cond, total, |ks| - 1) ==> Aggregates(cond, Times(ks - {t}, due), last)
  {
    forall k | k in ks ensures due[k] in Times(ks, due) {}
    var rest := ks - {t};
    assert |rest| == |ks| - 1;
    if Holds(cond, total, |ks| - 1) {
      if cond.AllOf? {
        assert |rest| == 0 && rest == {};
        assert ks == {t};
        assert Times(ks, due) == {due[t]};
      }
    } else {
      StillAggregates(ks, t, due, last);
    }
  }

  lemma KidsPopped(s: State, g: Forecast, t: nat, h: nat)
    requires Valid(s, g) && t in s.queue && s.tokens[t].handler == Some(h)
    ensures t < |g.home| && g.home[t].Queued? && t in Kids(s, g, h)
    ensures Kids(Popped(s, t), Spent(g, t), h) == Kids(s, g, h) - {t}
  {
    hide ResumesOk, ProcOk, LogOk, HandlerOk;
    assert TokenOk(s, g, t, None);
  }

  /** Without its token `t`, the composition `h` keeps its due time if it goes
      on waiting, and is due exactly now plus its latency if it fires. */
  lemma HandlerTakes(s: State, g: Forecast, t: nat, h: nat)
    requires Valid(s, g) && IsTop(s, t)
    requires s.tokens[t].handler == Some(h) && h < |s.handlers|
    ensures Waits(Popped(s, t), Spent(g, t), h) || Fires(Popped(s, t), Spent(g, t), h, t)
    ensures s.handlers[h].remaining > 0
  {
    hide ResumesOk, ProcOk, LogOk, TokenOk, Times, Aggregates, Holds;
    var hd, ks := s.handlers[h], Kids(s, g, h);
    assert HandlerOk(s, g, h);
    TopIsEarliest(s, g, t);
    KidsPopped(s, g, t, h);
    KidsNotBefore(s, g, t, h);
    hide Inv, Kids, IsTop;
    if hd.completion.Some? {
      var c := hd.completion.value;
      EarliestTaken(hd.cond, ks, t, g.due, hd.total, s.tokens[t].time, Minus(g.due[c], s.tokens[c].time));
    } else {
      NeverHoldsAgain(hd.cond, ks, t, hd.total);
    }
  }

  lemma NeverHoldsAgain(cond: Condition, ks: set<nat>, t: nat, total: int)
    requires t in ks && |ks| <= total && Holds(cond, total, |ks|)
    ensures |ks - {t}| == |ks| - 1 && Holds(cond, total, |ks| - 1)
  {
    assert cond.AllOf? ==> ks == {};
  }

  /** Dropping an earliest element from a larger set keeps the latest one. */
  lemma StillAggregates(ks: set<nat>, t: nat, due: seq<Instant>, last: Instant)
    requires t in ks && |ks - {t}| > 0
    requires forall k | k in ks :: k < |due|
    requires Aggregates(AllOf, Times(ks, due), last)
    requires forall k | k in ks :: Le(due[t], due[k])
    ensures Aggregates(AllOf, Times(ks - {t}, due), last)
  {
    var k :| k in ks - {t};
    assert due[k] in Times(ks, due) && due[k] in Times(ks - {t}, due);
    assert Times(ks, due) == Times(ks - {t}, due) + {due[t]};
  }

  /** A handler has taken a token: only its own counter and output changed. */
  ghost predicate Taken(s1: State, g: Forecast, s': State, g': Forecast) {
    && Inv(s', g', {}, {}, None) && g' == g.(home := g'.home) && |g'.home| == |g.home|
    && s'.log == s1.log && s'.now == s1.now && s'.procs == s1.procs && |s'.tokens| == |s1.tokens|
    && (forall i | 0 <= i < |g.home| :: g'.home[i].Gone? <==> g.home[i].Gone?)
  }

  lemma TakenOk(s1: State, g: Forecast, s': State, g': Forecast)
    requires Taken(s1, g, s', g') && LogOk(s1, g)
    ensures Valid(s', g')
  {
    hide TokenOk, ResumesOk, HandlerOk, ProcOk, WF;
  }

  lemma InvokeOk(s: State, g: Forecast, t: nat) returns (g': Forecast)
    requires Valid(s, g) && IsTop(s, t) && s.tokens[t].handler.Some?
    ensures var s' := Step(s, t);
      && Valid(s', g') && g'.due == g.due && g'.finish == g.finish && |s'.tokens| == |s.tokens|
      && (forall i | 0 <= i < |s.tokens| :: g'.home[i].Gone? <==> i == t || g.home[i].Gone?)
  {
    hide ResumesOk, HandlerOk, ProcOk, Waits, Fires, Kids, Invoke, LogOk;
    var h := s.tokens[t].handler.value;
    assert TokenWF(s.tokens[t], |s.handlers|, |s.procs|);
    PopOk(s, g, t);
    HandlerTakes(s, g, t, h);
    var s1, g1 := Popped(s, t), Spent(g, t);
    assert TokenOk(s1, g1, t, None);
    if Fires(s1, g1, h, t) {
      g' := FireOk(s1, g1, h, t);
    } else {
      g' := g1;
      WaitOk(s1, g1, h, t);
    }
    TakenOk(s1, g1, Invoke(s1, h, t), g');
  }

  /** The handler goes on waiting, or has fired long ago. */
  lemma WaitOk(s1: State, g: Forecast, h: nat, t: nat)
    requires Inv(s1, g, {h}, {}, None) && h < |s1.handlers| && t < |s1.tokens|
    requires Waits(s1, g, h) && s1.tokens[t].error.None?
    ensures Taken(s1, g, Invoke(s1, h, t), g)
  {
    var s' := Invoke(s1, h, t);
    assert s' == s1.(handlers := s1.handlers[h := s1.handlers[h].(remaining := s1.handlers[h].remaining - 1)]);
    forall i | 0 <= i < |s'.tokens| ensures TokenOk(s', g, i, None) && ResumesOk(s', g, i, {}, None) {
      assert TokenOk(s1, g, i, None) && ResumesOk(s1, g, i, {}, None);
    }
    forall h' | 0 <= h' < |s'.handlers| ensures HandlerOk(s', g, h') {
      assert h' != h ==> HandlerOk(s1, g, h');
      assert Kids(s', g, h') == Kids(s1, g, h');
    }
    forall p | 0 <= p < |s'.procs| ensures ProcOk(s', g, p, None) {
      assert ProcOk(s1, g, p, None);
    }
  }

  /** The handler schedules its output token, for exactly its due time. */
  lemma FireOk(s1: State, g: Forecast, h: nat, t: nat) returns (g': Forecast)
    requires Inv(s1, g, {h}, {}, None) && h < |s1.handlers| && t < |s1.tokens|
    requires g.home[t].Gone? && s1.now == s1.tokens[t].time
    requires Fires(s1, g, h, t)
    ensures Taken(s1, g, Invoke(s1, h, t), g')
  {
    hide ResumesOk, HandlerOk, ProcOk;
    var hd := s1.handlers[h];
    var c := hd.completion.value;
    g' := g.(home := g.home[c := Queued]);
    assert TokenOk(s1, g, t, None) && TokenOk(s1, g, c, None);
    var s' := Invoke(s1, h, t);
    FiredOk(s1, g, s', g', h, t, c);
  }

  lemma FiredOk(s1: State, g: Forecast, s': State, g': Forecast, h: nat, t: nat, c: nat)
    requires Inv(s1, g, {h}, {}, None) && h < |s1.handlers| && t < |s1.tokens| && WF(s')
    requires g.home[t].Gone? && s1.now == s1.tokens[t].time
    requires Fires(s1, g, h, t) && s1.handlers[h].completion == Some(c)
    requires s' == s1.(
      tokens := s1.tokens[c := s1.tokens[c].(time := s1.tokens[c].time + s1.tokens[t].time,
                                             priority := s1.tokens[t].priority)],
      queue := s1.queue + multiset{c},
      handlers := s1.handlers[h := s1.handlers[h].(remaining := s1.handlers[h].remaining - 1, completion := None)])
    requires g' == g.(home := g.home[c := Queued])
    ensures Taken(s1, g, s', g')
  {
    hide WF;
    assert TokenOk(s1, g, c, None);
    forall i | 0 <= i < |s'.tokens| ensures TokenOk(s', g', i, None) && ResumesOk(s', g', i, {}, None) {
      assert TokenOk(s1, g, i, None) && ResumesOk(s1, g, i, {}, None);
    }
    forall h' | 0 <= h' < |s'.handlers| ensures HandlerOk(s', g', h') {
      assert Kids(s', g', h') == Kids(s1, g, h');
      if h' != h {
        assert HandlerOk(s1, g, h');
        if s1.handlers[h'].completion.Some? {
          assert s1.handlers[h'].completion.value != c;
        }
      }
    }
    forall p | 0 <= p < |s'.procs| ensures ProcOk(s', g', p, None) {
      assert ProcOk(s1, g, p, None);
    }
  }

  // ----- a token that resumes a process -----

  /** The forecast grows but never changes; no token is spent on the way. */
  ghost predicate Keeps(g: Forecast, g': Forecast) {
    && g.due <= g'.due && g.finish <= g'.finish
    && |g.home| == |g.due| && |g'.home| == |g'.due|
    && (forall i | 0 <= i < |g.home| :: g'.home[i].Gone? <==> g.home[i].Gone?)
    && (forall i | |g.home| <= i < |g'.home| :: !g'.home[i].Gone?)
  }

  /** `s'` is `s` after scheduling the first completion token `c` of the running process `p`. */
  ghost predicate Completes(s: State, g: Forecast, s': State, g': Forecast, p: nat, c: nat, rest: seq<nat>) {
    && Inv(s, g, {}, {}, Some(p)) && p < |s.procs| && !s.procs[p].complete
    && s.procs[p].completions == [c] + rest && g.finish[p] == At(s.now) && c < |s.tokens|
    && s' == s.(tokens := s.tokens[c := s.tokens[c].(time := s.tokens[c].time + s.now)],
                queue := s.queue + multiset{c},
                procs := s.procs[p := s.procs[p].(completions := rest)])
    && g' == g.(home := g.home[c := Queued])
  }

  lemma CompletionTokenOk(s: State, g: Forecast, s': State, g': Forecast, p: nat, c: nat, rest: seq<nat>, i: nat)
    requires Completes(s, g, s', g', p, c, rest) && i < |s.tokens|
    ensures TokenOk(s', g', i, Some(p)) && ResumesOk(s', g', i, {}, Some(p))
  {
    assert c in s.procs[p].completions && ProcOk(s, g, p, Some(p));
    assert TokenOk(s, g, c, Some(p));
    assert TokenOk(s, g, i, Some(p)) && ResumesOk(s, g, i, {}, Some(p));
    if g.home[i] == Completion(p) && i != c {
      assert i in rest;
    }
  }

  lemma CompletionProcOk(s: State, g: Forecast, s': State, g': Forecast, p: nat, c: nat, rest: seq<nat>, q: nat)
    requires Completes(s, g, s', g', p, c, rest) && q < |s.procs|
    ensures ProcOk(s', g', q, Some(p))
  {
    assert c in s.procs[p].completions && ProcOk(s, g, p, Some(p));
    assert ProcOk(s, g, q, Some(p));
    assert s.procs[p].completions[0] == c;
    assert forall i | 0 <= i < |rest| :: rest[i] == s.procs[p].completions[i + 1];
    forall r | r in rest ensures r in s.procs[p].completions && r != c {}
  }

  /** Scheduling the first completion token of the running process. */
  lemma CompletionOk(s: State, g: Forecast, s': State, g': Forecast, p: nat, c: nat, rest: seq<nat>)
    requires Completes(s, g, s', g', p, c, rest) && WF(s')
    ensures Inv(s', g', {}, {}, Some(p)) && Keeps(g, g')
  {
    assert c in s.procs[p].completions && ProcOk(s, g, p, Some(p));
    forall i | 0 <= i < |s'.tokens| ensures TokenOk(s', g', i, Some(p)) && ResumesOk(s', g', i, {}, Some(p)) {
      CompletionTokenOk(s, g, s', g', p, c, rest, i);
    }
    forall h | 0 <= h < |s'.handlers| ensures HandlerOk(s', g', h) {
      assert HandlerOk(s, g, h);
      assert Kids(s', g', h) == Kids(s, g, h);
    }
    forall q | 0 <= q < |s'.procs| ensures ProcOk(s', g', q, Some(p)) {
      CompletionProcOk(s, g, s', g', p, c, rest, q);
    }
  }

  /** The state in which all of `cs`, the completions of `p`, are scheduled. */
  function Landed(s: State, p: nat, cs: seq<nat>): State
    requires p < |s.procs| && forall i | 0 <= i < |cs| :: cs[i] < |s.tokens|
  {
    s.(tokens := Land(s.tokens, cs, s.now), queue := s.queue + multiset(cs),
       procs := s.procs[p := s.procs[p].(completions := [])])
  }

  lemma LandedSplit(s: State, p: nat, c: nat, rest: seq<nat>, s1: State)
    requires p < |s.procs| && c < |s.tokens| && forall i | 0 <= i < |rest| :: rest[i] < |s.tokens|
    requires s1 == s.(tokens := s.tokens[c := s.tokens[c].(time := s.tokens[c].time + s.now)],
                      queue := s.queue + multiset{c},
                      procs := s.procs[p := s.procs[p].(completions := rest)])
    ensures forall i | 0 <= i < |[c] + rest| :: ([c] + rest)[i] < |s.tokens|
    ensures Landed(s, p, [c] + rest) == Landed(s1, p, rest)
  {
    var cs := [c] + rest;
    assert cs[0] == c && cs[1..] == rest;
    assert multiset(cs) == multiset{c} + multiset(rest);
    assert s1.queue + multiset(rest) == s.queue + multiset(cs);
  }

  /** All completion tokens of a process that returns now are scheduled, each
      for its due time. */
  lemma {:induction false} CompletionsOk(s: State, g: Forecast, p: nat, cs: seq<nat>) returns (g': Forecast)
    requires Inv(s, g, {}, {}, Some(p)) && p < |s.procs| && !s.procs[p].complete
    requires s.procs[p].completions == cs && g.finish[p] == At(s.now)
    ensures forall i | 0 <= i < |cs| :: cs[i] < |s.tokens|
    ensures g' == g.(home := g'.home) && Keeps(g, g')
    ensures Inv(Landed(s, p, cs), g', {}, {}, Some(p))
    decreases cs
  {
    assert ProcOk(s, g, p, Some(p));
    if cs == [] {
      g' := g;
      assert s.queue + multiset(cs) == s.queue;
      assert Landed(s, p, cs) == s;
    } else {
      var c, rest := cs[0], cs[1..];
      assert cs == [c] + rest;
      assert c in cs && forall r | r in rest :: r in cs;
      var s1 := FirstCompletion(s, g, p, c, rest);
      var g1 := g.(home := g.home[c := Queued]);
      CompletionOk(s, g, s1, g1, p, c, rest);
      g' := CompletionsOk(s1, g1, p, rest);
      LandedSplit(s, p, c, rest, s1);
    }
  }

  lemma FirstCompletion(s: State, g: Forecast, p: nat, c: nat, rest: seq<nat>) returns (s1: State)
    requires Inv(s, g, {}, {}, Some(p)) && p < |s.procs| && !s.procs[p].complete
    requires s.procs[p].completions == [c] + rest && g.finish[p] == At(s.now) && c < |s.tokens|
    ensures WF(s1) && Completes(s, g, s1, g.(home := g.home[c := Queued]), p, c, rest)
  {
    assert ProcOk(s, g, p, Some(p));
    assert forall i | 0 <= i < |rest| :: rest[i] == s.procs[p].completions[i + 1];
    assert TokenWF(s.tokens[c], |s.handlers|, |s.procs|);
    s1 := SetProc(Schedule(SetToken(s, c, s.tokens[c].(time := s.tokens[c].time + s.now)), c),
                  p, s.procs[p].(completions := rest));
  }

  lemma DoReturnOk(s: State, g: Forecast, p: nat) returns (g': Forecast)
    requires Inv(s, g, {}, {}, Some(p)) && LogOk(s, g) && p < |s.procs| && !s.procs[p].complete
    requires g.finish[p] == At(s.now)
    ensures var s' := DoReturn(s, p);
      Valid(s', g') && Keeps(g, g') && s'.procs[p].complete
  {
    assert ProcWF(s.procs[p], |s.tokens|);
    var cs := s.procs[p].completions;
    g' := CompletionsOk(s, g, p, cs);
    var s1 := Landed(s, p, cs);
    var s' := DoReturn(s, p);
    MarkCompleteOk(s1, g', s', p);
  }

  lemma MarkCompleteOk(s1: State, g: Forecast, s': State, p: nat)
    requires Inv(s1, g, {}, {}, Some(p)) && LogOk(s1, g) && p < |s1.procs| && !s1.procs[p].complete
    requires s1.procs[p].completions == [] && g.finish[p] == At(s1.now)
    requires s' == s1.(procs := s1.procs[p := s1.procs[p].(complete := true)], managed := s1.managed - {p},
                       log := s1.log + [Returned(p, s1.now)])
    ensures Valid(s', g)
  {
    hide LogOk;
    forall i | 0 <= i < |s'.tokens| ensures TokenOk(s', g, i, None) && ResumesOk(s', g, i, {}, None) {
      assert TokenOk(s1, g, i, Some(p)) && ResumesOk(s1, g, i, {}, Some(p));
    }
    forall h | 0 <= h < |s'.handlers| ensures HandlerOk(s', g, h) {
      assert HandlerOk(s1, g, h);
      assert Kids(s', g, h) == Kids(s1, g, h);
    }
    forall q | 0 <= q < |s'.procs| ensures ProcOk(s', g, q, None) {
      assert ProcOk(s1, g, q, Some(p));
    }
    ReturnLogged(s1, g, s', p);
  }

  lemma ReturnLogged(s1: State, g: Forecast, s': State, p: nat)
    requires LogOk(s1, g) && p < |s1.procs| && !s1.procs[p].complete && g.finish[p] == At(s1.now)
    requires s' == s1.(procs := s1.procs[p := s1.procs[p].(complete := true)], managed := s1.managed - {p},
                       log := s1.log + [Returned(p, s1.now)])
    ensures LogOk(s', g)
  {
    forall q | 0 <= q < |s'.procs| && s'.procs[q].complete
      ensures g.finish[q].At? && Returned(q, g.finish[q].t) in s'.log
    {
      if q == p { assert s'.log[|s1.log|] == Returned(p, s1.now); }
    }
  }

  lemma GrowsKeeps(s: State, g: Forecast, s': State, g': Forecast)
    requires Shape(s, g) && Shape(s', g') && Grows(s, g, s', g', {}) && LogOk(s, g)
    ensures Keeps(g, g') && LogOk(s', g')
  {
  }

  /** The process that was running now waits for the token `id`. */
  lemma SettleOk(s: State, g: Forecast, id: nat, p: nat) returns (g': Forecast)
    requires Inv(s, g, {}, {id}, Some(p)) && p < |s.procs| && id < |s.tokens| && !s.procs[p].complete
    requires !g.home[id].Gone? && s.tokens[id].handler.None? && s.tokens[id].coro == Some(p)
    requires forall c | c in s.procs[p].completions :: c < id
    requires g.finish[p] == Thread(s.procs[p].rest, g.due[id])
    ensures Inv(s, g', {}, {}, None) && g' == g.(wake := g'.wake)
  {
    g' := g.(wake := g.wake[p := id]);
    forall i | 0 <= i < |s.tokens| ensures TokenOk(s, g', i, None) && ResumesOk(s, g', i, {}, None) {
      assert TokenOk(s, g, i, Some(p)) && ResumesOk(s, g, i, {id}, Some(p));
    }
    forall h | 0 <= h < |s.handlers| ensures HandlerOk(s, g', h) {
      assert HandlerOk(s, g, h);
      assert Kids(s, g', h) == Kids(s, g, h);
    }
    forall q | 0 <= q < |s.procs| ensures ProcOk(s, g', q, None) {
      assert ProcOk(s, g, q, Some(p));
    }
  }

  /** A process that is resumed at its due time runs on: it returns at its
      forecast time, or waits for a token that is due in time for that. */
  lemma {:induction false} ResumeOk(s: State, g: Forecast, p: nat) returns (g': Forecast)
    requires Inv(s, g, {}, {}, Some(p)) && LogOk(s, g) && p < |s.procs| && !s.procs[p].complete
    requires g.finish[p] == Thread(s.procs[p].rest, At(s.now))
    ensures Valid(Resume(s, p), g') && Keeps(g, g')
    decreases |s.procs[p].rest|
  {
    hide TokenOk, ResumesOk, HandlerOk, ProcOk, LogOk, Grows, Bind, Poll, Suspend, DoReturn, NodeOk, PolledOk, Meaning;
    var proc := s.procs[p];
    if proc.rest == [] {
      g' := DoReturnOk(s, g, p);
    } else {
      assert ProcWF(proc, |s.tokens|);
      var s1 := SetProc(s, p, proc.(rest := proc.rest[1..]));
      AdvanceOk(s, g, s1, p);
      var (s2, bound) := Bind(s1, proc.rest[0], proc.priority);
      var g2 := BindOk(s1, g, proc.rest[0], proc.priority, Some(p));
      GrowsKeeps(s1, g, s2, g2);
      assert s2.procs[p] == s1.procs[p];
      PollOk(s2, g2, bound, Some(p));
      var (node, ready) := Poll(s2, bound);
      if ready {
        ReadyTakesNoTime(proc.rest[0], s.now);
        g' := ResumeOk(s2, g2, p);
      } else {
        var g3 := AwaitOk(s2, g2, node, p);
        g' := g3;
      }
    }
  }

  lemma AdvanceOk(s: State, g: Forecast, s1: State, p: nat)
    requires Inv(s, g, {}, {}, Some(p)) && LogOk(s, g) && p < |s.procs| && WF(s1)
    requires s.procs[p].rest != []
    requires s1 == s.(procs := s.procs[p := s.procs[p].(rest := s.procs[p].rest[1..])])
    ensures Inv(s1, g, {}, {}, Some(p)) && LogOk(s1, g)
  {
    forall i | 0 <= i < |s1.tokens| ensures TokenOk(s1, g, i, Some(p)) && ResumesOk(s1, g, i, {}, Some(p)) {
      assert TokenOk(s, g, i, Some(p)) && ResumesOk(s, g, i, {}, Some(p));
    }
    forall h | 0 <= h < |s1.handlers| ensures HandlerOk(s1, g, h) {
      assert HandlerOk(s, g, h);
      assert Kids(s1, g, h) == Kids(s, g, h);
    }
    forall q | 0 <= q < |s1.procs| ensures ProcOk(s1, g, q, Some(p)) {
      assert ProcOk(s, g, q, Some(p));
    }
  }

  /** The running process suspends on a node that is due in time. */
  lemma AwaitOk(s: State, g: Forecast, node: Node, p: nat) returns (g': Forecast)
    requires Inv(s, g, {}, {}, Some(p)) && LogOk(s, g) && p < |s.procs| && !s.procs[p].complete
    requires NodeIn(node, |s.procs|) && Polled(node)
    requires NodeOk(s, g, node, Some(p)) && PolledOk(node, s.now) && !NodeReady(node, s.now)
    requires g.finish[p] == Thread(s.procs[p].rest, Meaning(node, s.now, g.finish))
    ensures Valid(Suspend(s, node, Some(p)).0, g') && Keeps(g, g')
  {
    hide TokenOk, ResumesOk, HandlerOk, Suspend;
    var (s', id) := Suspend(s, node, Some(p));
    var g1 := SuspendOk(s, g, node, p, {}, {});
    assert {} + {id} == {id};
    GrowsKeeps(s, g, s', g1);
    assert ProcOk(s, g, p, Some(p));
    g' := SettleOk(s', g1, id, p);
  }

  /** One step: the popped token is spent and nothing else; every due time and
      every return time stays as forecast. */
  lemma StepOk(s: State, g: Forecast, t: nat) returns (g': Forecast)
    requires Valid(s, g) && IsTop(s, t)
    ensures Valid(Step(s, t), g') && Keeps(Spent(g, t), g')
    ensures !g.home[t].Gone?
  {
    hide HandlerOk, LogOk, Resume, Invoke;
    TopIsEarliest(s, g, t);
    var tk := s.tokens[t];
    if tk.handler.Some? {
      g' := InvokeOk(s, g, t);
    } else {
      PopOk(s, g, t);
      assert TokenOk(s, g, t, None) && ResumesOk(s, g, t, {}, None);
      if tk.coro.Some? {
        var p := tk.coro.value;
        assert ProcOk(s, g, p, None);
        g' := ResumeOk(Popped(s, t), Spent(g, t), p);
      } else {
        g' := Spent(g, t);
      }
    }
  }
}
