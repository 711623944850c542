/** What binding, awaiting and the end of a body change, and when bodies start. */
module CompletionEffects {
  import opened Options
  import opened Priorities
  import opened SharedCompletion
  import opened CompletionTheorems

  /** The action binds coroutine `c`, unless that is bound. */
  predicate Binding(s: State, a: Action, c: nat) {
    match a
    case Binds(d, _) => d == c
    case Awaits(h, _) => h < |s.handles| && s.handles[h].coro == c
    case Joins(h, _) => h < |s.handles| && s.handles[h].coro == c
    case _ => false
  }

  /** Nothing else than its end, or a reset, changes a bound coroutine: not its priority, nor
      the time at which it starts. */
  predicate SameStart(x: Coro, y: Coro) {
    && y.isVoid == x.isVoid && y.latency == x.latency && y.priority == x.priority && y.bound == x.bound
    && y.startAt == x.startAt
  }

  lemma RegisterCoro(s: State, h: nat, joint: bool, c: nat)
    requires h < |s.handles| && s.handles[h].coro < |s.coros| && c < |s.coros|
    ensures |Register(s, h, joint).coros| == |s.coros| && SameStart(s.coros[c], Register(s, h, joint).coros[c])
    ensures Register(s, h, joint).queue == s.queue
  {
  }

  /** Coroutine `c` has been bound in this step: it has its own priority if that was given and
      else that of whoever bound it, and its start token is queued for its latency from now. */
  predicate Bound(s: State, r: State, c: nat, inherited: int)
    requires c < |s.coros| && c < |r.coros|
  {
    var x, y := s.coros[c], r.coros[c];
    && y.bound && y.isVoid == x.isVoid && y.latency == x.latency && y.startAt == s.now + x.latency
    && (x.priority != INHERIT ==> y.priority == x.priority) && (x.priority == INHERIT ==> y.priority == inherited)
    && r.queue[Start(c)] == s.queue[Start(c)] + 1
  }

  lemma BindCoro(s: State, d: nat, priority: int, c: nat)
    requires WF(s) && d < |s.coros| && c < |s.coros|
    ensures var r := Bind(s, d, priority);
      && |r.coros| == |s.coros|
      && if c == d && !s.coros[c].bound then Bound(s, r, c, priority)
         else SameStart(s.coros[c], r.coros[c]) && r.queue[Start(c)] == s.queue[Start(c)]
  {
  }

  lemma AwaitCoro(s: State, h: nat, priority: int, c: nat)
    requires WF(s) && h < |s.handles| && c < |s.coros|
    ensures HandleWF(s, s.handles[h])
    ensures var d, r, q := s.handles[h].coro, Await(s, h, priority).0, Join(s, h, priority);
      && |r.coros| == |q.coros| == |s.coros|
      && if c == d && !s.coros[c].bound then Bound(s, r, c, priority) && Bound(s, q, c, priority)
         else
           && SameStart(s.coros[c], r.coros[c]) && r.queue[Start(c)] == s.queue[Start(c)]
           && SameStart(s.coros[c], q.coros[c]) && q.queue[Start(c)] == s.queue[Start(c)]
  {
    assert HandleWF(s, s.handles[h]);
    var d := s.handles[h].coro;
    BindCoro(s, d, priority, c);
    BindWF(s, d, priority);
    var s1 := Bind(s, d, priority);
    FreeShape(s1, h);
    RegisterCoro(s1, h, false, c);
    RegisterCoro(s1, h, true, c);
    hide Bind, Free, Register, WF, Answers;
  }

  /** A coroutine is bound by the first action that binds it or awaits it, with its own priority
      or else that of whoever does so, and starts its latency later; nothing else changes
      that. */
  lemma BindsInherit(s: State, a: Action, c: nat)
    requires Reachable(s) && Enabled(s, a) && c < |s.coros|
    ensures c < |Do(s, a).coros|
    ensures if Binding(s, a, c) && !s.coros[c].bound then Bound(s, Do(s, a), c, a.priority)
            else SameStart(s.coros[c], Do(s, a).coros[c])
  {
    match a
    case Creates(_, _, _) =>
    case Shares(_, _, _) =>
    case Binds(d, priority) => BindCoro(s, d, priority, c);
    case Awaits(h, priority) => AwaitCoro(s, h, priority, c);
    case Joins(h, priority) => AwaitCoro(s, h, priority, c);
    case Visits(h) => FreeShape(s, h);
    case Pops(e) => PopCoro(s, e, c);
    case Ends(_, _) =>
    case Resets =>
  }

  lemma PopCoro(s: State, e: Entry, c: nat)
    requires WF(s) && EntryWF(s, e) && c < |s.coros|
    ensures Pop(s, e).coros == s.coros
  {
  }

  /** A body starts at the time for which it was bound. */
  lemma StartsOnTime(s: State, c: nat)
    requires Reachable(s) && WF(s) && IsNext(s, Start(c))
    ensures c < |s.coros| && s.coros[c].bound && Pop(s, Start(c)).now == s.coros[c].startAt
    ensures c < |s.hist.starts| && s.hist.starts[c] == 0 && Pop(s, Start(c)).hist.starts[c] == 1
  {
    ReachableOk(s);
    assert CoroOk(s, c);
  }

  /** A handle stays what it is, but for its token. */
  lemma HandlesStay(s: State, a: Action, h: nat)
    requires Enabled(s, a) && h < |s.handles|
    ensures h < |Do(s, a).handles| && Do(s, a).handles[h] == s.handles[h].(token := Do(s, a).handles[h].token)
  {
    hide Answers, Complete, Wakes;
    match a
    case Creates(_, _, _) =>
    case Shares(_, _, _) =>
    case Binds(d, priority) =>
    case Awaits(g, priority) => AwaitHandle(s, g, priority, h);
    case Joins(g, priority) => AwaitHandle(s, g, priority, h);
    case Visits(g) => FreeShape(s, g);
    case Pops(e) =>
      if e.Wake? { PopShape(s, e.t); }
    case Ends(_, _) =>
    case Resets =>
  }

  lemma AwaitHandle(s: State, g: nat, priority: int, h: nat)
    requires WF(s) && g < |s.handles| && h < |s.handles|
    ensures var r, q := Await(s, g, priority).0, Join(s, g, priority);
      && h < |r.handles| && r.handles[h] == s.handles[h].(token := r.handles[h].token)
      && h < |q.handles| && q.handles[h] == s.handles[h].(token := q.handles[h].token)
  {
    assert HandleWF(s, s.handles[g]);
    var c := s.handles[g].coro;
    BindWF(s, c, priority);
    FreeShape(Bind(s, c, priority), g);
    hide Bind, Answers, WF;
  }

  /** What is created is new: a coroutine that is not bound, a handle that holds no token. */
  lemma CreatesNew(s: State, isVoid: bool, c: nat, latency: nat, priority: int)
    requires c < |s.coros|
    ensures var r := Create(s, isVoid, latency, priority);
      && r.coros[..|s.coros|] == s.coros && |r.coros| == |s.coros| + 1 && !r.coros[|s.coros|].bound
      && r.coros[|s.coros|].isVoid == isVoid && r.coros[|s.coros|].latency == latency
      && r.coros[|s.coros|].priority == priority && r.handles == s.handles && r.queue == s.queue
    ensures var r := Share(s, c, latency, priority);
      && r.handles[..|s.handles|] == s.handles && |r.handles| == |s.handles| + 1 && r.handles[|s.handles|].token.None?
      && r.handles[|s.handles|].coro == c && r.handles[|s.handles|].latency == latency
      && r.handles[|s.handles|].priority == priority && r.coros == s.coros && r.queue == s.queue
  {
  }

  /** A composition, and `async`, suspend on a handle exactly if a direct await would, and their
      token does not resume anybody itself. */
  lemma JoinsLikeAwaits(s: State, h: nat, priority: int)
    requires Reachable(s) && WF(s) && h < |s.handles|
    ensures HandleWF(s, s.handles[h])
    ensures var t, r, q := |s.tokens|, Await(s, h, priority), Join(s, h, priority);
      && (|q.tokens| == t + 1 <==> r.1 == Suspended(t)) && (|q.tokens| == t <==> !r.1.Suspended?)
      && (r.1.Suspended? ==>
            && |r.0.tokens| == t + 1 && !r.0.tokens[t].joint && q.tokens[t] == r.0.tokens[t].(joint := true)
            && q.tokens[t].handle == h && |q.handles| == |s.handles| && q.handles[h].token == Some(t)
            && r.0.handles == q.handles && r.0.coros == q.coros && r.0.queue == q.queue)
  {
    assert HandleWF(s, s.handles[h]);
    var c := s.handles[h].coro;
    BindWF(s, c, priority);
    FreeShape(Bind(s, c, priority), h);
    hide Answers;
  }
}
