/** What every process that awaits a shared coroutine gets, and when. */
module CompletionTheorems {
  import opened Options
  import opened Priorities
  import opened SharedCompletion

  // ----- the invariant -----

  ghost predicate Distinct(list: seq<nat>) {
    forall i, j | 0 <= i < j < |list| :: list[i] != list[j]
  }

  function Failure(o: Outcome): Option<int> {
    if o.Threw? then Some(o.e) else None
  }

  /** A coroutine is unbound, or under way, or has ended, or was destroyed. */
  ghost predicate CoroOk(s: State, c: nat)
    requires WF(s) && c < |s.coros|
  {
    var x, starts, pending := s.coros[c], s.hist.starts[c], s.queue[Start(c)];
    && (c in s.managed <==> x.bound && !x.complete)
    && (x.completions != [] ==> x.bound && s.hist.ended[c].None?)
    && Distinct(x.completions)
    && (s.hist.ended[c].None? ==> x.value.None?)
    && if !x.bound then !x.complete && starts == 0 && pending == 0 && s.hist.ended[c].None? && s.hist.destroyed[c] == 0
       else if !x.complete then starts + pending == 1 && s.hist.ended[c].None? && s.hist.destroyed[c] == 0
       else
         && pending == 0 && starts <= 1
         && (s.hist.destroyed[c] == if s.hist.ended[c].Some? then 0 else 1)
         && (s.hist.ended[c].Some? ==> starts == 1 && ValueOk(x, s.hist.ended[c].value.1))
  }

  predicate ValueOk(x: Coro, o: Outcome) {
    match o
    case Returned(v) => x.value == v && (v.None? <==> x.isVoid)
    case Threw(_) => x.value.None?
  }

  /** Some `await_resume` has cleared the token from its handle, its own or another. */
  predicate Freed(s: State, t: nat)
    requires |s.hist.replies| == |s.tokens| && t < |s.tokens|
  {
    t in s.hist.abandoned || t in s.hist.taken || OwnUse(s.hist.replies[t], t)
  }

  /** The process of `t` has used `t`. */
  predicate OwnUse(r: Option<Reply>, t: nat) {
    r.Some? && r.value.Answered? && r.value.used == Some(t)
  }

  /** A token is listed with its coroutine until that ends; then it is due one return
      latency later, and is queued once, until it is popped or there is a reset. Its handle
      holds it until it is freed. */
  ghost predicate TokenOk(s: State, t: nat)
    requires WF(s) && t < |s.tokens|
  {
    var k, c := s.tokens[t], CoroOf(s, t);
    var h, left := s.handles[k.handle], s.queue[Wake(t)];
    && s.coros[c].bound
    && k.priority == (if h.priority == INHERIT then s.coros[c].priority else h.priority)
    && (h.token == Some(t) <==> !Freed(s, t))
    && (t in s.hist.taken ==> s.coros[c].complete && t !in s.hist.abandoned)
    && (t in s.coros[c].completions <==> s.hist.ended[c].None?)
    && match s.hist.ended[c]
       case None => left == 0 && k.time == h.latency && k.error.None? && s.hist.replies[t].None? && t !in s.hist.dropped
       case Some((at, o)) =>
         && k.time == at + h.latency && k.error == Failure(o)
         && (t in s.hist.taken ==> s.hist.taken[t] == Failure(o))
         && (s.hist.replies[t].None? <==> left == 1 || t in s.hist.dropped)
         && (s.hist.replies[t].Some? ==> ReplyOk(s, t, at + h.latency, o, s.hist.replies[t].value))
         && left <= (if t in s.hist.dropped then 0 else 1)
  }

  /** What came of token `t`, due at `due`: the process saw an exception if it found a token
      in the handle, be it its own or that of a later await. */
  predicate ReplyOk(s: State, t: nat, due: int, o: Outcome, r: Reply)
    requires WF(s) && t < |s.tokens|
  {
    match r
    case Handed(at) => at == due && s.tokens[t].joint
    case Answered(at, a, used) =>
      && at == due && !s.tokens[t].joint
      && a == Resumes(s.coros[CoroOf(s, t)], if used.Some? then Failure(o) else None)
      && (used == Some(t) <==> t !in s.hist.abandoned && t !in s.hist.taken)
  }

  /** A handle holds a token of its own. */
  ghost predicate HandleOk(s: State, h: nat)
    requires WF(s) && h < |s.handles|
  {
    var k := s.handles[h].token;
    k.Some? ==> k.value < |s.tokens| && s.tokens[k.value].handle == h
  }

  /** The list of a coroutine holds its own tokens. */
  ghost predicate ListOk(s: State, c: nat)
    requires WF(s) && c < |s.coros|
  {
    forall i | 0 <= i < |s.coros[c].completions| ::
      Below(s.coros[c].completions, |s.tokens|) && CoroOf(s, s.coros[c].completions[i]) == c
  }

  ghost predicate NotLate(s: State)
    requires WF(s)
  {
    forall e | e in s.queue :: EntryWF(s, e) && s.now <= TimeOf(s, e)
  }

  ghost predicate Inv(s: State) {
    && WF(s)
    && (forall c | 0 <= c < |s.coros| :: CoroOk(s, c) && ListOk(s, c))
    && (forall t | 0 <= t < |s.tokens| :: TokenOk(s, t))
    && NotLate(s)
    && (forall h | 0 <= h < |s.handles| :: HandleOk(s, h))
    && (forall t | t in s.hist.taken :: t < |s.tokens|)
    && (forall t | t in s.hist.abandoned :: t < |s.tokens|)
    && (forall t | t in s.hist.dropped :: t < |s.tokens|)
    && (forall c | c in s.managed :: c < |s.coros|)
  }

  // ----- the loops over completion tokens -----

  lemma {:induction false} CompleteAt(tokens: seq<Token>, list: seq<nat>, now: int, error: Option<int>, t: nat)
    requires Below(list, |tokens|) && Distinct(list) && t < |tokens|
    ensures |Complete(tokens, list, now, error)| == |tokens|
    ensures Complete(tokens, list, now, error)[t] == if t in list then Due(tokens[t], now, error) else tokens[t]
    decreases |list|
  {
    if list != [] {
      CompleteAt(tokens[list[0] := Due(tokens[list[0]], now, error)], list[1..], now, error, t);
      assert t in list <==> t == list[0] || t in list[1..];
      assert list[0] !in list[1..];
    }
  }

  lemma {:induction false} WakesCount(list: seq<nat>, t: nat, c: nat)
    requires Distinct(list)
    ensures Wakes(list)[Wake(t)] == if t in list then 1 else 0
    ensures Wakes(list)[Start(c)] == 0
  {
    if list != [] {
      WakesCount(list[1..], t, c);
      assert t in list <==> t == list[0] || t in list[1..];
      assert list[0] !in list[1..];
    }
  }

  // ----- the operations keep it -----

  /** What only concerns coroutines stays when nothing of theirs changes. */
  lemma CorosKept(s: State, r: State)
    requires Inv(s) && WF(r) && r.coros == s.coros && r.managed == s.managed
    requires r.tokens == s.tokens && |r.handles| == |s.handles|
    requires forall h | 0 <= h < |s.handles| :: r.handles[h].coro == s.handles[h].coro
    requires forall d | 0 <= d < |s.coros| :: r.queue[Start(d)] == s.queue[Start(d)]
    requires r.hist.starts == s.hist.starts && r.hist.destroyed == s.hist.destroyed && r.hist.ended == s.hist.ended
    ensures forall t | 0 <= t < |s.tokens| :: CoroOf(r, t) == CoroOf(s, t)
    ensures forall d | 0 <= d < |r.coros| :: CoroOk(r, d) && ListOk(r, d)
  {
    hide TokenOk;
    forall d | 0 <= d < |r.coros| ensures CoroOk(r, d) && ListOk(r, d) {
      assert CoroOk(s, d) && ListOk(s, d) && Below(s.coros[d].completions, |s.tokens|);
    }
  }

  lemma CreateOk(s: State, isVoid: bool, latency: nat, priority: int)
    requires Inv(s)
    ensures Inv(Create(s, isVoid, latency, priority))
  {
    var r, n := Create(s, isVoid, latency, priority), |s.coros|;
    assert Start(n) !in s.queue by {
      assert Start(n) in s.queue ==> EntryWF(s, Start(n));
    }
    assert WF(r) by {
      forall h | 0 <= h < |r.handles| ensures HandleWF(r, r.handles[h]) { assert HandleWF(s, s.handles[h]); }
      forall c | 0 <= c < |r.coros| ensures Below(r.coros[c].completions, |r.tokens|) {}
      forall e | e in r.queue ensures EntryWF(r, e) { assert EntryWF(s, e); }
    }
    assert n !in s.managed;
    forall c | 0 <= c < |r.coros| ensures CoroOk(r, c) && ListOk(r, c) {
      if c < n { assert CoroOk(s, c) && ListOk(s, c); }
    }
    forall t | 0 <= t < |r.tokens| ensures TokenOk(r, t) { assert TokenOk(s, t); }
    forall h | 0 <= h < |r.handles| ensures HandleOk(r, h) { assert HandleOk(s, h); }
    forall e | e in r.queue ensures EntryWF(r, e) && r.now <= TimeOf(r, e) { assert EntryWF(s, e); }
  }

  lemma ShareOk(s: State, c: nat, latency: nat, priority: int)
    requires Inv(s) && c < |s.coros|
    ensures Inv(Share(s, c, latency, priority))
  {
    var r := Share(s, c, latency, priority);
    assert WF(r) by {
      forall h | 0 <= h < |r.handles| ensures HandleWF(r, r.handles[h]) {
        assert h < |s.handles| ==> HandleWF(s, s.handles[h]);
      }
      forall e | e in r.queue ensures EntryWF(r, e) { assert EntryWF(s, e); }
    }
    forall d | 0 <= d < |r.coros| ensures CoroOk(r, d) && ListOk(r, d) {
      assert CoroOk(s, d) && ListOk(s, d);
    }
    forall t | 0 <= t < |r.tokens| ensures TokenOk(r, t) { assert TokenOk(s, t); }
    forall h | 0 <= h < |r.handles| ensures HandleOk(r, h) { assert h < |s.handles| ==> HandleOk(s, h); }
    forall e | e in r.queue ensures EntryWF(r, e) && r.now <= TimeOf(r, e) { assert EntryWF(s, e); }
  }

  lemma BindOk(s: State, c: nat, priority: int)
    requires Inv(s) && c < |s.coros|
    ensures Inv(Bind(s, c, priority))
  {
    var r := Bind(s, c, priority);
    assert CoroOk(s, c);
    if !s.coros[c].bound {
      BindWF(s, c, priority);
      forall d | 0 <= d < |r.coros| ensures CoroOk(r, d) && ListOk(r, d) {
        assert CoroOk(s, d) && ListOk(s, d);
      }
      forall t | 0 <= t < |r.tokens| ensures TokenOk(r, t) { assert TokenOk(s, t); }
      forall h | 0 <= h < |r.handles| ensures HandleOk(r, h) { assert HandleOk(s, h); }
      forall e | e in r.queue ensures EntryWF(r, e) && r.now <= TimeOf(r, e) {
        assert e in s.queue ==> EntryWF(s, e);
      }
    }
  }

  lemma RegisterWF(s: State, h: nat, joint: bool)
    requires WF(s) && h < |s.handles|
    ensures HandleWF(s, s.handles[h]) && WF(Register(s, h, joint))
  {
    assert HandleWF(s, s.handles[h]);
    var r := Register(s, h, joint);
    forall d | 0 <= d < |r.handles| ensures HandleWF(r, r.handles[d]) { assert HandleWF(s, s.handles[d]); }
    forall d | 0 <= d < |r.coros| ensures Below(r.coros[d].completions, |r.tokens|) {
      assert Below(s.coros[d].completions, |s.tokens|);
    }
    forall e | e in r.queue ensures EntryWF(r, e) { assert EntryWF(s, e); }
  }

  lemma RegisterCoros(s: State, h: nat, joint: bool)
    requires Inv(s) && h < |s.handles| && HandleWF(s, s.handles[h]) && WF(Register(s, h, joint))
    requires s.coros[s.handles[h].coro].bound && !s.coros[s.handles[h].coro].complete
    ensures forall d | 0 <= d < |s.coros| :: CoroOk(Register(s, h, joint), d) && ListOk(Register(s, h, joint), d)
  {
    hide TokenOk;
    var r, n := Register(s, h, joint), |s.tokens|;
    forall t | 0 <= t < n ensures CoroOf(r, t) == CoroOf(s, t) {}
    forall d | 0 <= d < |r.coros| ensures CoroOk(r, d) && ListOk(r, d) {
      assert CoroOk(s, d) && ListOk(s, d) && Below(s.coros[d].completions, n);
    }
  }

  lemma RegisterToken(s: State, h: nat, joint: bool, t: nat)
    requires WF(s) && h < |s.handles| && HandleWF(s, s.handles[h]) && WF(Register(s, h, joint))
    requires s.handles[h].token.None? && t < |s.tokens| && TokenOk(s, t)
    requires Below(s.coros[s.handles[h].coro].completions, |s.tokens|)
    ensures TokenOk(Register(s, h, joint), t)
  {
    assert CoroOf(Register(s, h, joint), t) == CoroOf(s, t);
    hide WF;
  }

  lemma RegisterOk(s: State, h: nat, joint: bool)
    requires Inv(s) && h < |s.handles| && HandleWF(s, s.handles[h])
    requires s.coros[s.handles[h].coro].bound && !s.coros[s.handles[h].coro].complete && s.handles[h].token.None?
    ensures Inv(Register(s, h, joint))
  {
    var r, c, n := Register(s, h, joint), s.handles[h].coro, |s.tokens|;
    assert CoroOk(s, c);
    assert Wake(n) !in s.queue by {
      assert Wake(n) in s.queue ==> EntryWF(s, Wake(n));
    }
    RegisterWF(s, h, joint);
    RegisterCoros(s, h, joint);
    hide CoroOk, ListOk;
    forall t | 0 <= t < |r.tokens| ensures TokenOk(r, t) {
      assert Below(s.coros[c].completions, n);
      if t < n {
        assert TokenOk(s, t);
        RegisterToken(s, h, joint, t);
      }
    }
    hide TokenOk;
    forall d | 0 <= d < |r.handles| ensures HandleOk(r, d) { assert HandleOk(s, d); }
    forall e | e in r.queue ensures EntryWF(r, e) && r.now <= TimeOf(r, e) { assert EntryWF(s, e); }
  }

  /** What freeing a handle changes. */
  lemma FreeShape(s: State, h: nat)
    requires WF(s) && h < |s.handles|
    ensures var r, k := Free(s, h, None), s.handles[h].token;
      && r.now == s.now && r.coros == s.coros && r.tokens == s.tokens && r.queue == s.queue && r.managed == s.managed
      && r.handles == s.handles[h := s.handles[h].(token := None)]
      && r.hist == s.hist.(taken := r.hist.taken, abandoned := r.hist.abandoned)
      && (forall t: nat | Some(t) != k ::
            && (t in r.hist.abandoned <==> t in s.hist.abandoned) && (t in r.hist.taken <==> t in s.hist.taken)
            && (t in s.hist.taken ==> r.hist.taken[t] == s.hist.taken[t]))
      && HandleWF(s, s.handles[h])
      && (k.Some? ==>
            if s.coros[s.handles[h].coro].complete then
              && r.hist.abandoned == s.hist.abandoned
              && k.value in r.hist.taken && r.hist.taken[k.value] == s.tokens[k.value].error
            else r.hist.taken == s.hist.taken && k.value in r.hist.abandoned)
  {
    assert HandleWF(s, s.handles[h]);
  }

  lemma FreeToken(s: State, h: nat, t: nat)
    requires WF(s) && h < |s.handles| && t < |s.tokens| && WF(Free(s, h, None)) && TokenOk(s, t) && HandleOk(s, h)
    ensures TokenOk(Free(s, h, None), t)
  {
    FreeShape(s, h);
    var r := Free(s, h, None);
    assert CoroOf(r, t) == CoroOf(s, t);
    hide WF, Free;
    assert Freed(r, t) <==> Freed(s, t) || s.handles[h].token == Some(t);
    if s.hist.ended[CoroOf(s, t)].Some? && s.hist.replies[t].Some? {
      var at, o := s.hist.ended[CoroOf(s, t)].value.0, s.hist.ended[CoroOf(s, t)].value.1;
      assert ReplyOk(s, t, at + s.handles[s.tokens[t].handle].latency, o, s.hist.replies[t].value);
      assert ReplyOk(r, t, at + s.handles[s.tokens[t].handle].latency, o, s.hist.replies[t].value);
    }
  }

  lemma FreeOk(s: State, h: nat)
    requires Inv(s) && h < |s.handles|
    ensures Inv(Free(s, h, None))
  {
    var r := Free(s, h, None);
    FreeWF(s, h, None);
    assert HandleOk(s, h);
    CorosKept(s, r);
    hide CoroOk, ListOk, TokenOk;
    forall t | 0 <= t < |r.tokens| ensures TokenOk(r, t) {
      assert TokenOk(s, t);
      FreeToken(s, h, t);
    }
    forall d | 0 <= d < |r.handles| ensures HandleOk(r, d) { assert HandleOk(s, d); }
    forall e | e in r.queue ensures EntryWF(r, e) && r.now <= TimeOf(r, e) { assert EntryWF(s, e); }
  }

  lemma AwaitOk(s: State, h: nat, priority: int)
    requires Inv(s) && h < |s.handles|
    ensures Inv(Await(s, h, priority).0)
  {
    assert HandleWF(s, s.handles[h]);
    var c := s.handles[h].coro;
    BindOk(s, c, priority);
    BindWF(s, c, priority);
    hide CoroOk, TokenOk, ListOk;
    var s1 := Bind(s, c, priority);
    assert HandleWF(s1, s1.handles[h]);
    if s1.coros[c].complete {
      FreeOk(s1, h);
    } else if s1.handles[h].token.None? {
      RegisterOk(s1, h, false);
    }
  }

  lemma JoinOk(s: State, h: nat, priority: int)
    requires Inv(s) && h < |s.handles|
    ensures Inv(Join(s, h, priority))
  {
    assert HandleWF(s, s.handles[h]);
    var c := s.handles[h].coro;
    BindOk(s, c, priority);
    BindWF(s, c, priority);
    hide CoroOk, TokenOk, ListOk;
    var s1 := Bind(s, c, priority);
    assert HandleWF(s1, s1.handles[h]);
    if !s1.coros[c].complete && s1.handles[h].token.None? {
      RegisterOk(s1, h, true);
    }
  }

  lemma EndTokens(s: State, c: nat, outcome: Outcome)
    requires Inv(s) && c < |s.coros| && s.hist.ended[c].None?
    ensures var r := End(s, c, outcome);
      && |r.tokens| == |s.tokens|
      && (forall t | 0 <= t < |s.tokens| ::
            r.tokens[t] == if CoroOf(s, t) == c then Due(s.tokens[t], s.now, Failure(outcome)) else s.tokens[t])
      && (forall t | 0 <= t < |s.tokens| ::
            r.queue[Wake(t)] == s.queue[Wake(t)] + if CoroOf(s, t) == c then 1 else 0)
      && (forall d | 0 <= d < |s.coros| :: r.queue[Start(d)] == s.queue[Start(d)])
  {
    var list := s.coros[c].completions;
    assert CoroOk(s, c) && ListOk(s, c);
    forall t | 0 <= t < |s.tokens| ensures t in list <==> CoroOf(s, t) == c {
      assert TokenOk(s, t);
    }
    var r := End(s, c, outcome);
    if |s.tokens| == 0 {
      assert list == [];
    } else {
      CompleteAt(s.tokens, list, s.now, Failure(outcome), 0);
    }
    forall t | 0 <= t < |s.tokens|
      ensures r.tokens[t] == if CoroOf(s, t) == c then Due(s.tokens[t], s.now, Failure(outcome)) else s.tokens[t]
      ensures r.queue[Wake(t)] == s.queue[Wake(t)] + if CoroOf(s, t) == c then 1 else 0
    {
      CompleteAt(s.tokens, list, s.now, Failure(outcome), t);
      WakesCount(list, t, 0);
    }
    forall d | 0 <= d < |s.coros| ensures r.queue[Start(d)] == s.queue[Start(d)] {
      WakesCount(list, 0, d);
    }
  }

  lemma {:induction false} WakesIn(list: seq<nat>, e: Entry)
    requires e in Wakes(list)
    ensures e.Wake? && e.t in list
  {
    if e != Wake(list[0]) {
      WakesIn(list[1..], e);
    }
  }

  lemma EndWF(s: State, c: nat, outcome: Outcome)
    requires Inv(s) && c < |s.coros| && s.hist.ended[c].None?
    ensures WF(End(s, c, outcome))
    ensures forall e | e in End(s, c, outcome).queue :: e in s.queue || (e.Wake? && e.t in s.coros[c].completions)
  {
    hide CoroOk, TokenOk, ListOk;
    var r := End(s, c, outcome);
    EndTokens(s, c, outcome);
    forall h | 0 <= h < |r.handles| ensures HandleWF(r, r.handles[h]) { assert HandleWF(s, s.handles[h]); }
    forall d | 0 <= d < |r.coros| ensures Below(r.coros[d].completions, |r.tokens|) {
      assert Below(s.coros[d].completions, |s.tokens|);
    }
    forall e | e in r.queue ensures EntryWF(r, e) && (e in s.queue || (e.Wake? && e.t in s.coros[c].completions)) {
      if e in s.queue {
        assert EntryWF(s, e);
      } else {
        WakesIn(s.coros[c].completions, e);
        assert Below(s.coros[c].completions, |s.tokens|);
      }
    }
    forall t | 0 <= t < |r.tokens| ensures r.tokens[t].handle < |r.handles| {
      assert r.tokens[t].handle == s.tokens[t].handle;
    }
  }

  lemma EndCoros(s: State, c: nat, outcome: Outcome)
    requires Inv(s) && Enabled(s, Ends(c, outcome)) && WF(End(s, c, outcome))
    ensures forall d | 0 <= d < |s.coros| :: CoroOk(End(s, c, outcome), d) && ListOk(End(s, c, outcome), d)
  {
    var r := End(s, c, outcome);
    assert CoroOk(s, c) && ListOk(s, c);
    EndTokens(s, c, outcome);
    hide Complete, Wakes, TokenOk, NotLate;
    forall t | 0 <= t < |s.tokens| ensures CoroOf(r, t) == CoroOf(s, t) {}
    forall d | 0 <= d < |r.coros| ensures CoroOk(r, d) && ListOk(r, d) {
      assert CoroOk(s, d) && ListOk(s, d) && Below(s.coros[d].completions, |s.tokens|);
    }
  }

  lemma EndTokenOk(s: State, c: nat, outcome: Outcome, t: nat)
    requires WF(s) && c < |s.coros| && t < |s.tokens| && WF(End(s, c, outcome)) && TokenOk(s, t)
    requires s.hist.ended[c].None? && s.coros[c].bound && s.coros[c].value.None? && !s.coros[c].complete
    requires var r, own := End(s, c, outcome), CoroOf(s, t) == c;
      && |r.tokens| == |s.tokens|
      && r.tokens[t] == (if own then Due(s.tokens[t], s.now, Failure(outcome)) else s.tokens[t])
      && r.queue[Wake(t)] == s.queue[Wake(t)] + if own then 1 else 0
    ensures TokenOk(End(s, c, outcome), t)
  {
    assert CoroOf(End(s, c, outcome), t) == CoroOf(s, t);
    hide WF, Complete, Wakes;
  }

  lemma EndOk(s: State, c: nat, outcome: Outcome)
    requires Inv(s) && Enabled(s, Ends(c, outcome))
    ensures Inv(End(s, c, outcome))
  {
    var r := End(s, c, outcome);
    assert CoroOk(s, c) && ListOk(s, c);
    EndTokens(s, c, outcome);
    EndWF(s, c, outcome);
    EndCoros(s, c, outcome);
    hide Complete, Wakes, CoroOk, ListOk;
    forall t | 0 <= t < |r.tokens| ensures TokenOk(r, t) {
      assert TokenOk(s, t);
      EndTokenOk(s, c, outcome, t);
    }
    forall h | 0 <= h < |r.handles| ensures HandleOk(r, h) { assert HandleOk(s, h); }
    hide Inv;
    forall e | e in r.queue ensures EntryWF(r, e) && r.now <= TimeOf(r, e) {
      EndEntryOk(s, c, outcome, e);
    }
  }

  lemma EndEntryOk(s: State, c: nat, outcome: Outcome, e: Entry)
    requires Inv(s) && c < |s.coros| && s.hist.ended[c].None? && WF(End(s, c, outcome)) && e in End(s, c, outcome).queue
    ensures var r := End(s, c, outcome); EntryWF(r, e) && r.now <= TimeOf(r, e)
  {
    EndWF(s, c, outcome);
    EndTokens(s, c, outcome);
    hide Complete, Wakes, CoroOk;
    assert e in s.queue ==> EntryWF(s, e);
    if e.Wake? {
      assert ListOk(s, c) && Below(s.coros[c].completions, |s.tokens|);
      assert TokenOk(s, e.t);
    }
  }

  lemma PopStartOk(s: State, c: nat)
    requires Inv(s) && IsNext(s, Start(c))
    ensures Inv(Pop(s, Start(c)))
  {
    var r := Pop(s, Start(c));
    assert WF(r) by {
      forall h | 0 <= h < |r.handles| ensures HandleWF(r, r.handles[h]) { assert HandleWF(s, s.handles[h]); }
      forall e | e in r.queue ensures EntryWF(r, e) { assert e in s.queue && EntryWF(s, e); }
    }
    forall d | 0 <= d < |r.coros| ensures CoroOk(r, d) && ListOk(r, d) {
      assert CoroOk(s, d) && ListOk(s, d);
    }
    forall t | 0 <= t < |r.tokens| ensures TokenOk(r, t) { assert TokenOk(s, t); }
    forall h | 0 <= h < |r.handles| ensures HandleOk(r, h) { assert HandleOk(s, h); }
    forall e | e in r.queue ensures EntryWF(r, e) && r.now <= TimeOf(r, e) {
      assert e in s.queue && EntryWF(s, e);
    }
  }

  lemma PopWakeWF(s: State, t: nat)
    requires WF(s) && t < |s.tokens|
    ensures WF(Pop(s, Wake(t)))
  {
    var r, h := Pop(s, Wake(t)), s.tokens[t].handle;
    FreeWF(s, h, Some(t));
    forall d | 0 <= d < |r.handles| ensures HandleWF(r, r.handles[d]) {
      assert HandleWF(s, s.handles[d]) && HandleWF(Free(s, h, Some(t)), Free(s, h, Some(t)).handles[d]);
    }
    forall e | e in r.queue ensures EntryWF(r, e) { assert e in s.queue && EntryWF(s, e); }
  }

  /** The token that is popped, and then the others. */
  lemma PopOwn(s: State, t: nat)
    requires WF(s) && t < |s.tokens| && WF(Pop(s, Wake(t))) && TokenOk(s, t) && CoroOk(s, CoroOf(s, t))
    requires s.queue[Wake(t)] == 1 && s.now <= s.tokens[t].time
    requires HandleOk(s, s.tokens[t].handle)
    requires var k := s.handles[s.tokens[t].handle].token; k.Some? ==> k.value < |s.tokens| && TokenOk(s, k.value)
    ensures TokenOk(Pop(s, Wake(t)), t)
  {
    assert CoroOf(Pop(s, Wake(t)), t) == CoroOf(s, t);
    var k := s.handles[s.tokens[t].handle].token;
    if k.Some? { assert CoroOf(s, k.value) == CoroOf(s, t); }
    hide WF;
  }

  lemma PopWakeToken(s: State, t: nat, q: nat)
    requires WF(s) && t < |s.tokens| && q < |s.tokens| && WF(Pop(s, Wake(t))) && t != q
    requires s.queue[Wake(t)] == 1 && CoroOk(s, CoroOf(s, t))
    requires HandleOk(s, s.tokens[t].handle) && TokenOk(s, t) && TokenOk(s, q)
    ensures TokenOk(Pop(s, Wake(t)), q)
  {
    assert CoroOf(Pop(s, Wake(t)), q) == CoroOf(s, q);
    hide WF;
  }

  lemma WakeOnce(s: State, t: nat)
    requires WF(s) && t < |s.tokens| && TokenOk(s, t) && Wake(t) in s.queue
    ensures s.queue[Wake(t)] == 1
  {
  }

  lemma PopShape(s: State, t: nat)
    requires WF(s) && t < |s.tokens|
    ensures var r, h := Pop(s, Wake(t)), s.tokens[t].handle;
      && r.tokens == s.tokens && r.coros == s.coros && r.managed == s.managed && r.queue == s.queue - multiset{Wake(t)}
      && r.now == (if s.tokens[t].time > s.now then s.tokens[t].time else s.now)
      && r.handles == (if s.tokens[t].joint then s.handles else s.handles[h := s.handles[h].(token := None)])
      && (forall u | u in r.hist.taken :: u in s.hist.taken || s.handles[h].token == Some(u))
      && (forall u | u in r.hist.abandoned :: u in s.hist.abandoned || s.handles[h].token == Some(u))
      && r.hist.dropped == s.hist.dropped
  {
  }

  lemma PopTokens(s: State, t: nat)
    requires Inv(s) && IsNext(s, Wake(t)) && WF(Pop(s, Wake(t)))
    ensures forall q | 0 <= q < |s.tokens| :: q < |Pop(s, Wake(t)).tokens| && TokenOk(Pop(s, Wake(t)), q)
  {
    var k := s.handles[s.tokens[t].handle].token;
    PopShape(s, t);
    assert EntryWF(s, Wake(t)) && HandleOk(s, s.tokens[t].handle);
    assert TokenOk(s, t) && CoroOk(s, CoroOf(s, t)) && s.now <= s.tokens[t].time by { assert NotLate(s); }
    WakeOnce(s, t);
    assert k.Some? ==> TokenOk(s, k.value);
    hide CoroOk, ListOk, TokenOk, Pop, NotLate;
    forall q | 0 <= q < |s.tokens| ensures TokenOk(Pop(s, Wake(t)), q) {
      assert TokenOk(s, q);
      if q == t { PopOwn(s, t); } else { PopWakeToken(s, t, q); }
    }
  }

  lemma PopCoros(s: State, t: nat)
    requires Inv(s) && IsNext(s, Wake(t)) && WF(Pop(s, Wake(t)))
    ensures forall d | 0 <= d < |s.coros| ::
      d < |Pop(s, Wake(t)).coros| && CoroOk(Pop(s, Wake(t)), d) && ListOk(Pop(s, Wake(t)), d)
  {
    hide CoroOk, ListOk, TokenOk, NotLate;
    CorosKept(s, Pop(s, Wake(t)));
  }

  lemma PopWakeOk(s: State, t: nat)
    requires Inv(s) && IsNext(s, Wake(t))
    ensures Inv(Pop(s, Wake(t)))
  {
    var r := Pop(s, Wake(t));
    PopWakeWF(s, t);
    PopCoros(s, t);
    PopTokens(s, t);
    PopShape(s, t);
    assert s.now <= TimeOf(s, Wake(t));
    hide CoroOk, ListOk, TokenOk, Pop;
    forall h | 0 <= h < |r.handles| ensures HandleOk(r, h) { assert HandleOk(s, h); }
    forall e | e in r.queue ensures EntryWF(r, e) && r.now <= TimeOf(r, e) {
      assert e in s.queue && EntryWF(s, e);
    }
  }

  lemma ResetOk(s: State)
    requires Inv(s)
    ensures Inv(Reset(s))
  {
    var r := Reset(s);
    assert WF(r) by {
      forall h | 0 <= h < |r.handles| ensures HandleWF(r, r.handles[h]) { assert HandleWF(s, s.handles[h]); }
      forall d | 0 <= d < |r.coros| ensures Below(r.coros[d].completions, |r.tokens|) {
        assert Below(s.coros[d].completions, |s.tokens|);
      }
    }
    forall q | 0 <= q < |s.tokens| ensures CoroOf(r, q) == CoroOf(s, q) {}
    forall d | 0 <= d < |r.coros| ensures CoroOk(r, d) && ListOk(r, d) {
      assert CoroOk(s, d) && ListOk(s, d) && Below(s.coros[d].completions, |s.tokens|);
    }
    forall q | 0 <= q < |r.tokens| ensures TokenOk(r, q) { assert TokenOk(s, q); }
    forall h | 0 <= h < |r.handles| ensures HandleOk(r, h) { assert HandleOk(s, h); }
  }

  lemma DoOk(s: State, a: Action)
    requires Inv(s) && Enabled(s, a)
    ensures Inv(Do(s, a))
  {
    hide CoroOk, TokenOk, ListOk, NotLate;
    match a
    case Creates(v, latency, priority) => CreateOk(s, v, latency, priority);
    case Shares(c, latency, priority) => ShareOk(s, c, latency, priority);
    case Binds(c, priority) => BindOk(s, c, priority);
    case Awaits(h, priority) => AwaitOk(s, h, priority);
    case Joins(h, priority) => JoinOk(s, h, priority);
    case Visits(h) => FreeOk(s, h);
    case Pops(e) =>
      match e {
        case Start(c) => PopStartOk(s, c);
        case Wake(t) => PopWakeOk(s, t);
      }
    case Ends(c, outcome) => EndOk(s, c, outcome);
    case Resets => ResetOk(s);
  }

  lemma {:induction false} RunsOk(s: State, acts: seq<Action>, s': State)
    requires Inv(s) && Runs(s, acts, s')
    ensures Inv(s')
    decreases |acts|
  {
    if acts != [] {
      DoOk(s, acts[0]);
      RunsOk(Do(s, acts[0]), acts[1..], s');
    }
  }

  lemma ReachableOk(s: State)
    requires Reachable(s)
    ensures Inv(s)
  {
    var acts :| Runs(Empty, acts, s);
    RunsOk(Empty, acts, s);
  }

  // ----- what follows -----

  /** A body starts at most once, however often it is bound or awaited, and has a
      start token only until then. */
  lemma BodyStartsOnce(s: State, c: nat)
    requires Reachable(s) && c < |s.coros|
    ensures c < |s.hist.starts| && s.hist.starts[c] + s.queue[Start(c)] <= 1
    ensures s.coros[c].bound && !s.coros[c].complete ==> s.hist.starts[c] + s.queue[Start(c)] == 1
    ensures !s.coros[c].bound ==> s.hist.starts[c] + s.queue[Start(c)] == 0
  {
    ReachableOk(s);
    assert CoroOk(s, c);
  }

  /** The environment manages exactly the coroutines that are bound and not complete. */
  lemma ManagedExactly(s: State)
    requires Reachable(s)
    ensures s.managed == set c: nat | c < |s.coros| && s.coros[c].bound && !s.coros[c].complete
  {
    ReachableOk(s);
    forall c: nat ensures c in s.managed <==> c < |s.coros| && s.coros[c].bound && !s.coros[c].complete {
      if c < |s.coros| {
        assert CoroOk(s, c);
      }
    }
  }

  /** What a body's end means for those that await it. */
  function Delivered(isVoid: bool, o: Outcome): Answer {
    match o
    case Returned(v) => if isVoid || v.None? then Done else Value(v.value)
    case Threw(e) => Rethrown(e)
  }

  /** What `await_resume` gives without a token: an exception is not seen. */
  function Missed(isVoid: bool, o: Outcome): Answer {
    if o.Returned? then Delivered(isVoid, o) else if isVoid then Done else NoReturnValue
  }

  /** Whoever suspended on a coroutine waits until that ends; then the token is queued once,
      for the end plus its own return latency, and popped at just that time (unless a reset
      drops it first): a handler's goes to the handler, and else the process is resumed. It
      gets the value, or the exception if it finds a token in its handle; it finds its own,
      unless some other await_resume through that handle has abandoned or taken it. */
  lemma EveryWaiterServed(s: State, t: nat)
    requires Reachable(s) && t < |s.tokens|
    ensures WF(s)
    ensures var h := s.handles[s.tokens[t].handle];
      s.tokens[t].priority == if h.priority == INHERIT then s.coros[CoroOf(s, t)].priority else h.priority
    ensures var c := CoroOf(s, t);
      match s.hist.ended[c]
      case None => t in s.coros[c].completions && Wake(t) !in s.queue && s.hist.replies[t].None?
      case Some((at, o)) =>
        var due, got := at + s.handles[s.tokens[t].handle].latency, s.hist.replies[t];
        && s.tokens[t].time == due && t !in s.coros[c].completions
        && (t in s.hist.taken ==> s.hist.taken[t] == Failure(o))
        && if t in s.hist.dropped then got.None? && Wake(t) !in s.queue
           else if got.None? then s.queue[Wake(t)] == 1
           else Wake(t) !in s.queue && Served(s, t, s.coros[c].isVoid, due, o, got.value)
  {
    ReachableOk(s);
    assert TokenOk(s, t) && CoroOk(s, CoroOf(s, t));
  }

  predicate Served(s: State, t: nat, isVoid: bool, due: int, o: Outcome, r: Reply)
    requires t < |s.tokens|
  {
    match r
    case Handed(at) => s.tokens[t].joint && at == due
    case Answered(at, a, used) =>
      && !s.tokens[t].joint && at == due
      && a == (if used.Some? then Delivered(isVoid, o) else Missed(isVoid, o))
      && (used == Some(t) <==> t !in s.hist.abandoned && t !in s.hist.taken)
  }

  lemma RegisterReplies(s: State, h: nat, joint: bool)
    requires WF(s) && h < |s.handles| && s.handles[h].coro < |s.coros|
    ensures Register(s, h, joint).hist.replies == s.hist.replies + [None]
  {
  }

  lemma AwaitReplies(s: State, h: nat, priority: int)
    requires WF(s) && h < |s.handles|
    ensures s.hist.replies <= Await(s, h, priority).0.hist.replies
    ensures s.hist.replies <= Join(s, h, priority).hist.replies
  {
    assert HandleWF(s, s.handles[h]);
    var c := s.handles[h].coro;
    var s1 := Bind(s, c, priority);
    BindWF(s, c, priority);
    FreeShape(s1, h);
    RegisterReplies(s1, h, false);
    RegisterReplies(s1, h, true);
    hide Free, Register, WF, Answers;
  }

  lemma OnlyWakesReply(s: State, a: Action, t: nat)
    requires Enabled(s, a) && t < |s.tokens| && a != Pops(Wake(t))
    ensures |Do(s, a).hist.replies| >= |s.tokens| && Do(s, a).hist.replies[t] == s.hist.replies[t]
  {
    assert |s.hist.replies| == |s.tokens|;
    if a.Awaits? || a.Joins? { AwaitReplies(s, a.h, a.priority); }
    if a.Visits? { FreeShape(s, a.h); }
    hide Complete, Wakes, Answers, WF, IsNext, Await, Join, Free, Register;
  }

  /** What came of a token is final. */
  lemma RepliesStay(s: State, a: Action, t: nat)
    requires Reachable(s) && Enabled(s, a) && t < |s.tokens| && s.hist.replies[t].Some?
    ensures |Do(s, a).hist.replies| >= |s.tokens| && Do(s, a).hist.replies[t] == s.hist.replies[t]
  {
    hide Do;
    ReachableOk(s);
    assert TokenOk(s, t);
    OnlyWakesReply(s, a, t);
  }

  /** A handle never holds two tokens: of all that were made for it at most one has not been
      freed. An await through it suspends if and only if the coroutine is not complete and
      each token made for the handle before was abandoned; while one was not, it throws. */
  lemma HandleSuspendsIff(s: State, h: nat, priority: int)
    requires Reachable(s) && WF(s) && h < |s.handles|
    ensures HandleWF(s, s.handles[h])
    ensures forall t, u | 0 <= t < |s.tokens| && 0 <= u < |s.tokens| && s.tokens[t].handle == h == s.tokens[u].handle ::
        Freed(s, t) || Freed(s, u) || t == u
    ensures var complete := s.coros[s.handles[h].coro].complete;
      var free := forall t: nat | t < |s.tokens| && s.tokens[t].handle == h :: t in s.hist.abandoned;
      && (Await(s, h, priority).1.Suspended? <==> !complete && free)
      && (Await(s, h, priority).1.AlreadyAwaited? <==> !complete && !free)
  {
    ReachableOk(s);
    var c := s.handles[h].coro;
    assert HandleWF(s, s.handles[h]) && HandleOk(s, h) && CoroOk(s, c);
    forall t | 0 <= t < |s.tokens| && s.tokens[t].handle == h
      ensures s.handles[h].token == Some(t) <==> !Freed(s, t)
      ensures !s.coros[c].complete && Freed(s, t) ==> t in s.hist.abandoned
    {
      assert TokenOk(s, t);
    }
    hide TokenOk, CoroOk;
    if s.handles[h].token.Some? {
      var t := s.handles[h].token.value;
      assert s.tokens[t].handle == h && !Freed(s, t);
    }
  }

  /** Who awaits after the end does not suspend, and gets what the body's end means if
      and only if the body returned or the handle still holds the token of an earlier
      await: through any other handle an exception is not seen. */
  lemma LateAwaitAgreesIff(s: State, h: nat, priority: int, at: int, o: Outcome)
    requires Reachable(s) && WF(s) && h < |s.handles| && HandleWF(s, s.handles[h])
    requires s.hist.ended[s.handles[h].coro] == Some((at, o))
    ensures Await(s, h, priority).1.Now?
    ensures var a, isVoid := Await(s, h, priority).1.a, s.coros[s.handles[h].coro].isVoid;
      && (a == Delivered(isVoid, o) <==> o.Returned? || s.handles[h].token.Some?)
      && (a != Delivered(isVoid, o) ==> a == Missed(isVoid, o))
  {
    ReachableOk(s);
    assert CoroOk(s, s.handles[h].coro) && HandleOk(s, h);
    if s.handles[h].token.Some? {
      assert TokenOk(s, s.handles[h].token.value);
    }
  }

  /** A reset destroys each incomplete coroutine, once in its life, and leaves no
      coroutine managed and no token queued. */
  lemma ResetDestroysOnce(s: State, c: nat)
    requires Reachable(s) && WF(s) && c < |s.coros|
    ensures var r := Reset(s);
      && r.managed == {} && r.queue == multiset{} && r.now == 0
      && |r.hist.destroyed| == |r.coros| == |s.coros|
      && (r.coros[c].bound ==> r.coros[c].complete)
      && r.hist.destroyed[c] == s.hist.destroyed[c] + (if s.coros[c].bound && !s.coros[c].complete then 1 else 0) <= 1
  {
    ReachableOk(s);
    assert CoroOk(s, c);
  }

  lemma Prepend(s: State, a: Action, acts: seq<Action>, s': State)
    requires Enabled(s, a) && Runs(Do(s, a), acts, s')
    ensures Runs(s, [a] + acts, s')
  {
    assert ([a] + acts)[1..] == acts;
  }

  /** One coroutine with two handles; a composition suspends on the first, or `async` does;
      the body starts, and throws 7. */
  const Shared := State(0, [Coro(false, 0, 0, false, 0, false, None, [])],
                        [Handle(0, 0, 0, None), Handle(0, 0, 0, None)],
                        [], multiset{}, {}, History([0], [0], [None], [], {}, map[], {}))

  const Waiting := State(0, [Coro(false, 0, 0, true, 0, false, None, [0])],
                         [Handle(0, 0, 0, Some(0)), Handle(0, 0, 0, None)], [Token(0, 0, 0, None, true)],
                         multiset{Start(0)}, {0}, History([0], [0], [None], [None], {}, map[], {}))

  const Started := Waiting.(queue := multiset{}, hist := Waiting.hist.(starts := [1]))

  const Thrown := State(0, [Coro(false, 0, 0, true, 0, true, None, [])],
                        [Handle(0, 0, 0, Some(0)), Handle(0, 0, 0, None)], [Token(0, 0, 0, Some(7), true)],
                        multiset{Wake(0)}, {}, History([1], [0], [Some((0, Threw(7)))], [None], {}, map[], {}))

  lemma IsShared(acts: seq<Action>, s: State)
    requires Runs(Shared, acts, s)
    ensures Runs(Empty, [Creates(false, 0, 0)] + ([Shares(0, 0, 0)] + ([Shares(0, 0, 0)] + acts)), s)
  {
    var s1 := Create(Empty, false, 0, 0);
    var s2 := Share(s1, 0, 0, 0);
    assert Share(s2, 0, 0, 0) == Shared;
    Prepend(s2, Shares(0, 0, 0), acts, s);
    Prepend(s1, Shares(0, 0, 0), [Shares(0, 0, 0)] + acts, s);
    Prepend(Empty, Creates(false, 0, 0), [Shares(0, 0, 0)] + ([Shares(0, 0, 0)] + acts), s);
  }

  lemma IsWaiting()
    ensures WF(Shared) && Join(Shared, 0, 0) == Waiting
  {
    var s1 := Bind(Shared, 0, 0);
    assert s1.queue == multiset{Start(0)} && s1.managed == {0};
    assert s1.coros == [Coro(false, 0, 0, true, 0, false, None, [])];
    var s2 := Register(s1, 0, true);
    assert s2.coros[0].completions == [] + [0] == [0];
    assert s2.coros == Waiting.coros;
    assert s2.handles == Waiting.handles && s2.tokens == Waiting.tokens;
    assert s2.hist == Waiting.hist;
    hide WF;
  }

  lemma WaitingWF()
    ensures WF(Waiting)
  {
    assert Below(Waiting.coros[0].completions, 1);
  }

  lemma IsStarted()
    ensures WF(Waiting) && IsNext(Waiting, Start(0)) && Pop(Waiting, Start(0)) == Started && WF(Started)
  {
    assert WF(Waiting) by {
      assert Below(Waiting.coros[0].completions, 1);
    }
    assert Waiting.queue - multiset{Start(0)} == multiset{};
  }

  lemma IsThrown()
    requires WF(Started)
    ensures End(Started, 0, Threw(7)) == Thrown && WF(Thrown)
  {
    var s := End(Started, 0, Threw(7));
    assert Complete(Started.tokens, [0], 0, Some(7)) == [Token(0, 0, 0, Some(7), true)] by {
      assert [0][1..] == [];
    }
    assert Wakes([0]) == multiset{Wake(0)} by {
      assert [0][1..] == [];
    }
    assert s.queue == multiset{Wake(0)} && s.managed == {} && s.coros == Thrown.coros;
    assert s.hist.ended == [Some((0, Threw(7)))];
  }

  /** A run to `Thrown` and on. */
  lemma ThroughThrown(acts: seq<Action>, s: State) returns (all: seq<Action>)
    requires Runs(Thrown, acts, s)
    ensures Runs(Empty, all, s)
  {
    IsWaiting();
    IsStarted();
    IsThrown();
    var a, b, c := Joins(0, 0), Pops(Start(0)), Ends(0, Threw(7));
    Prepend(Started, c, acts, s);
    Prepend(Waiting, b, [c] + acts, s);
    Prepend(Shared, a, [b] + ([c] + acts), s);
    IsShared([a] + ([b] + ([c] + acts)), s);
    all := [Creates(false, 0, 0)] + ([Shares(0, 0, 0)] + ([Shares(0, 0, 0)] + ([a] + ([b] + ([c] + acts)))));
  }

  /** An exception that a late awaiting process does not see: the process awaits
      through the second handle after the end. */
  lemma LateAwaitMissesException() returns (acts: seq<Action>)
    ensures Runs(Empty, acts, Thrown) && WF(Thrown)
    ensures Thrown.hist.ended[0] == Some((0, Threw(7))) && Await(Thrown, 1, 0).1 == Now(NoReturnValue)
  {
    IsStarted();
    IsThrown();
    acts := ThroughThrown([], Thrown);
  }

  const HandedOver := Thrown.(queue := multiset{}, hist := Thrown.hist.(replies := [Some(Handed(0))]))

  lemma IsHandedOver()
    requires WF(Thrown)
    ensures IsNext(Thrown, Wake(0)) && Pop(Thrown, Wake(0)) == HandedOver && WF(HandedOver)
  {
    PopWakeWF(Thrown, 0);
    assert Thrown.queue - multiset{Wake(0)} == multiset{};
    hide WF;
  }

  /** A late await that sees the exception: the composition was not resumed to visit the
      handle, or stopped at an earlier exception, so that its token is still there. */
  lemma LateAwaitTakesException() returns (acts: seq<Action>)
    ensures Runs(Empty, acts, HandedOver) && WF(HandedOver) && HandedOver.hist.ended == [Some((0, Threw(7)))]
    ensures HandedOver.hist.replies == [Some(Handed(0))]
    ensures Await(HandedOver, 0, 0).1 == Now(Rethrown(7))
    ensures Await(HandedOver, 0, 0).0.hist.taken == map[0 := Some(7)]
  {
    IsStarted();
    IsThrown();
    IsHandedOver();
    hide Pop;
    Prepend(Thrown, Pops(Wake(0)), [], HandedOver);
    acts := ThroughThrown([Pops(Wake(0))] + [], HandedOver);
  }

  const Abandoned := Waiting.(handles := Shared.handles, hist := Waiting.hist.(abandoned := {0}))

  const Twice := Abandoned.(
    coros := [Coro(false, 0, 0, true, 0, false, None, [0, 1])],
    handles := [Handle(0, 0, 0, Some(1)), Handle(0, 0, 0, None)],
    tokens := [Token(0, 0, 0, None, true), Token(0, 0, 0, None, false)],
    hist := Abandoned.hist.(replies := [None, None]))

  lemma IsAbandoned()
    ensures WF(Waiting) && Free(Waiting, 0, None) == Abandoned && WF(Abandoned)
  {
    WaitingWF();
    FreeWF(Waiting, 0, None);
    assert ClearToken(Waiting, 0).handles == Shared.handles;
  }

  lemma IsTwice()
    ensures WF(Abandoned) && Await(Abandoned, 0, 0).0 == Twice && WF(Twice)
  {
    IsAbandoned();
    var s := Register(Abandoned, 0, false);
    RegisterWF(Abandoned, 0, false);
    assert Bind(Abandoned, 0, 0) == Abandoned;
    assert s.coros[0].completions == [0] + [1] == [0, 1];
    assert s.coros == Twice.coros && s.handles == Twice.handles && s.tokens == Twice.tokens && s.hist == Twice.hist;
    hide WF;
  }

  lemma FromWaiting(acts: seq<Action>, s: State) returns (all: seq<Action>)
    requires Runs(Waiting, acts, s)
    ensures Runs(Empty, all, s)
  {
    IsWaiting();
    hide Join;
    Prepend(Shared, Joins(0, 0), acts, s);
    IsShared([Joins(0, 0)] + acts, s);
    all := [Creates(false, 0, 0)] + ([Shares(0, 0, 0)] + ([Shares(0, 0, 0)] + ([Joins(0, 0)] + acts)));
  }

  /** A handle through which two awaits suspend: `async` has abandoned the token of the
      first, or a composition that another child completed. */
  lemma HandleSuspendsAgain() returns (acts: seq<Action>)
    ensures Runs(Empty, acts, Twice) && WF(Twice) && Twice.hist.ended == [None] && Twice.hist.abandoned == {0}
    ensures Twice.tokens[0].handle == Twice.tokens[1].handle == 0 && Twice.handles[0].token == Some(1)
  {
    IsAbandoned();
    IsTwice();
    hide Free, Await;
    Prepend(Abandoned, Awaits(0, 0), [], Twice);
    Prepend(Waiting, Visits(0), [Awaits(0, 0)] + [], Twice);
    acts := FromWaiting([Visits(0)] + ([Awaits(0, 0)] + []), Twice);
  }
}
