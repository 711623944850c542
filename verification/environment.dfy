/** The simulation environment as an object. Each method updates the fields in
    place and is proved to do what the functions of `KernelState` say; the
    public ones keep the invariant, so all theorems about runs apply to them. */
module Simulation {
  import opened Options
  import opened AwaitAlgebra
  import opened KernelState
  import KernelInvariant
  import KernelSteps
  import KernelTheorems
  import KernelRuns

  class Environment {
    var now: int
    var tokens: seq<Token>
    var queue: multiset<nat>
    var handlers: seq<Handler>
    var procs: seq<Proc>
    var managed: set<nat>
    var escaped: Option<nat>
    ghost var log: seq<Event>
    ghost var forecast: KernelInvariant.Forecast

    ghost function View(): State
      reads this
    {
      State(now, tokens, queue, handlers, procs, managed, escaped, log)
    }

    ghost predicate Valid()
      reads this
    {
      KernelInvariant.Valid(View(), forecast)
    }

    constructor ()
      ensures Valid() && View() == Empty
    {
      now, tokens, queue, handlers, procs, managed, escaped := 0, [], multiset{}, [], [], {}, None;
      log := [];
      forecast := KernelInvariant.Forecast([], [], [], []);
      new;
      KernelTheorems.EmptyOk();
    }

    method ScheduleToken(t: nat)
      requires WF(View()) && t < |tokens|
      modifies this`queue
      ensures View() == Schedule(old(View()), t)
    {
      queue := queue + multiset{t};
    }

    method NewToken(tk: Token) returns (id: nat)
      requires WF(View()) && TokenWF(tk, |handlers|, |procs|)
      modifies this`tokens
      ensures View() == Allocate(old(View()), tk) && id == |old(tokens)|
    {
      id := |tokens|;
      tokens := tokens + [tk];
    }

    // ----- the await protocol -----

    method BindCoroutine(body: seq<Await>, start: nat, prio: int) returns (p: nat)
      requires WF(View())
      modifies this
      ensures View() == BindProcess(old(View()), body, start, prio) && p == |old(procs)|
      ensures forecast == old(forecast)
    {
      p := |procs|;
      procs := procs + [Proc(body, prio, [], false)];
      assert View() == NewProc(old(View()), Proc(body, prio, [], false));
      var t := NewToken(Token(now + start, prio, Some(p), None, None));
      ScheduleToken(t);
      managed := managed + {p};
    }

    method AwaitBind(e: Await, prio: int) returns (n: Node)
      requires WF(View())
      modifies this
      ensures (View(), n) == Bind(old(View()), e, prio)
      ensures forecast == old(forecast)
      decreases e, 1
    {
      match e
      case Delay(d, p) => n := Timer(true, d, Resolve(p, prio));
      case Until(t, p) => n := Timer(false, t, Resolve(p, prio));
      case Compose(cond, kids, latency, p) =>
        var p' := Resolve(p, prio);
        var ns := BindChildren(kids, p');
        n := Group(cond, ns, latency, p', [], 0);
      case Sequential(kids, start, ret, p, retPrio) =>
        var pid := BindCoroutine(kids, start, Resolve(p, prio));
        n := Process(pid, ret, retPrio);
    }

    method BindChildren(kids: seq<Await>, prio: int) returns (ns: seq<Node>)
      requires WF(View())
      modifies this
      ensures (View(), ns) == BindAll(old(View()), kids, prio)
      ensures forecast == old(forecast)
      decreases kids, 0
    {
      hide Bind, WF;
      ns := [];
      assert kids[0..] == kids;
      for i := 0 to |kids|
        invariant WF(View()) && forecast == old(forecast)
        invariant BindAll(old(View()), kids, prio).0 == BindAll(View(), kids[i..], prio).0
        invariant BindAll(old(View()), kids, prio).1 == ns + BindAll(View(), kids[i..], prio).1
      {
        ghost var s := View();
        var n := AwaitBind(kids[i], prio);
        assert kids[i..][0] == kids[i] && kids[i..][1..] == kids[i + 1..];
        assert BindAll(s, kids[i..], prio).1 == [n] + BindAll(View(), kids[i + 1..], prio).1;
        ns := ns + [n];
      }
      assert BindAll(View(), kids[|kids|..], prio) == (View(), []);
      assert ns + [] == ns;
    }

    method AwaitReady(n: Node) returns (n': Node, ready: bool)
      requires NodeIn(n, |procs|)
      ensures (n', ready) == Poll(View(), n)
      decreases n, 1
    {
      match n
      case Timer(relative, t, _) => n', ready := n, !relative && now >= t;
      case Process(p, _, _) => n', ready := n, procs[p].complete;
      case Group(cond, kids, latency, prio, _, _) =>
        var ks, flags, remaining := PollChildren(kids);
        n', ready := Group(cond, ks, latency, prio, flags, remaining), Holds(cond, |kids|, remaining);
    }

    method PollChildren(kids: seq<Node>) returns (ks: seq<Node>, flags: seq<bool>, remaining: int)
      requires forall n | n in kids :: NodeIn(n, |procs|)
      ensures (ks, flags) == PollAll(View(), kids) && remaining == |kids| - CountReady(flags)
      decreases kids, 0
    {
      hide Poll;
      remaining := |kids|;
      ks, flags := [], [];
      assert kids[0..] == kids;
      for i := 0 to |kids|
        invariant PollAll(View(), kids).0 == ks + PollAll(View(), kids[i..]).0
        invariant PollAll(View(), kids).1 == flags + PollAll(View(), kids[i..]).1
        invariant remaining == |kids| - CountReady(flags)
      {
        var k, r := AwaitReady(kids[i]);
        assert kids[i..][0] == kids[i] && kids[i..][1..] == kids[i + 1..];
        assert PollAll(View(), kids[i..]).0 == [k] + PollAll(View(), kids[i + 1..]).0;
        assert PollAll(View(), kids[i..]).1 == [r] + PollAll(View(), kids[i + 1..]).1;
        CountSnoc(flags, r);
        ks, flags := ks + [k], flags + [r];
        remaining := remaining - if r then 1 else 0;
      }
      assert PollAll(View(), kids[|kids|..]) == ([], []);
      assert ks + [] == ks && flags + [] == flags;
    }

    static lemma {:induction false} CountSnoc(flags: seq<bool>, f: bool)
      ensures CountReady(flags + [f]) == CountReady(flags) + if f then 1 else 0
    {
      if flags == [] {
        assert flags + [f] == [f];
      } else {
        assert (flags + [f])[0] == flags[0] && (flags + [f])[1..] == flags[1..] + [f];
        CountSnoc(flags[1..], f);
      }
    }

    method AwaitSuspend(n: Node, waiter: Option<nat>) returns (id: nat)
      requires WF(View()) && NodeIn(n, |procs|) && Polled(n)
      requires waiter.Some? ==> waiter.value < |procs|
      modifies this
      ensures (View(), id) == Suspend(old(View()), n, waiter)
      ensures forecast == old(forecast)
      decreases n, 1
    {
      match n
      case Timer(relative, t, prio) =>
        id := NewToken(Token(if relative then now + t else t, prio, waiter, None, None));
        ScheduleToken(id);
      case Process(p, ret, retPrio) =>
        id := NewToken(Token(ret, Resolve(retPrio, procs[p].priority), waiter, None, None));
        procs := procs[p := procs[p].(completions := procs[p].completions + [id])];
      case Group(cond, kids, latency, prio, ready, remaining) =>
        id := NewToken(Token(latency, prio, waiter, None, None));
        var h := |handlers|;
        ghost var s1 := View();
        handlers := handlers + [Handler(cond, |kids|, remaining, Some(id))];
        assert View() == NewHandler(s1, Handler(cond, |kids|, remaining, Some(id)));
        SuspendChildren(kids, ready, waiter, h);
    }

    method SuspendChildren(kids: seq<Node>, ready: seq<bool>, waiter: Option<nat>, h: nat)
      requires WF(View()) && |ready| == |kids| && h < |handlers|
      requires forall n | n in kids :: NodeIn(n, |procs|) && Polled(n)
      requires waiter.Some? ==> waiter.value < |procs|
      modifies this
      ensures View() == SuspendAll(old(View()), kids, ready, waiter, h)
      ensures forecast == old(forecast)
      decreases kids, 0
    {
      hide Suspend;
      assert kids[0..] == kids && ready[0..] == ready;
      for i := 0 to |kids|
        invariant WF(View()) && forecast == old(forecast) && h < |handlers| && |procs| == |old(procs)|
        invariant SuspendAll(old(View()), kids, ready, waiter, h)
               == SuspendAll(View(), kids[i..], ready[i..], waiter, h)
      {
        assert kids[i..][0] == kids[i] && kids[i..][1..] == kids[i + 1..];
        assert ready[i..][0] == ready[i] && ready[i..][1..] == ready[i + 1..];
        if !ready[i] {
          var k := AwaitSuspend(kids[i], waiter);
          ghost var s1 := View();
          assert TokenWF(tokens[k], |handlers|, |procs|);
          tokens := tokens[k := tokens[k].(handler := Some(h))];
          assert View() == SetToken(s1, k, s1.tokens[k].(handler := Some(h)));
        }
      }
    }

    // ----- processing tokens -----

    method InvokeHandler(h: nat, t: nat)
      requires WF(View()) && h < |handlers| && t < |tokens|
      modifies this
      ensures View() == Invoke(old(View()), h, t)
      ensures forecast == old(forecast)
    {
      assert HandlerWF(handlers[h], |tokens|);
      hide WF;
      handlers := handlers[h := handlers[h].(remaining := handlers[h].remaining - 1)];
      if tokens[t].error.Some? {
        escaped := tokens[t].error;
      } else if handlers[h].completion.Some? && Holds(handlers[h].cond, handlers[h].total, handlers[h].remaining) {
        var c := handlers[h].completion.value;
        tokens := tokens[c := tokens[c].(
          time := tokens[c].time + tokens[t].time, priority := tokens[t].priority, coro := tokens[t].coro)];
        queue := queue + multiset{c};
        handlers := handlers[h := handlers[h].(completion := None)];
      }
    }

    /** Schedules the completion tokens `cs`, each at its latency from now. */
    method ScheduleAll(cs: seq<nat>)
      requires forall i | 0 <= i < |cs| :: cs[i] < |tokens|
      modifies this`tokens, this`queue
      ensures tokens == Land(old(tokens), cs, now) && queue == old(queue) + multiset(cs)
    {
      assert cs[0..] == cs && cs[..0] == [];
      for i := 0 to |cs|
        invariant |tokens| == |old(tokens)|
        invariant Land(old(tokens), cs, now) == Land(tokens, cs[i..], now)
        invariant queue == old(queue) + multiset(cs[..i])
      {
        var c := cs[i];
        assert cs[i..][0] == c && cs[i..][1..] == cs[i + 1..];
        tokens := tokens[c := tokens[c].(time := tokens[c].time + now)];
        assert cs[..i + 1] == cs[..i] + [c];
        queue := queue + multiset{c};
      }
      assert cs[..|cs|] == cs && cs[|cs|..] == [];
    }

    method ReturnFrom(p: nat)
      requires WF(View()) && p < |procs|
      modifies this
      ensures View() == DoReturn(old(View()), p)
      ensures forecast == old(forecast)
    {
      assert ProcWF(procs[p], |tokens|);
      ScheduleAll(procs[p].completions);
      procs := procs[p := procs[p].(completions := [], complete := true)];
      managed := managed - {p};
      log := log + [Returned(p, now)];
    }

    method ResumeProcess(p: nat)
      requires WF(View()) && p < |procs|
      modifies this
      ensures View() == Resume(old(View()), p)
      ensures forecast == old(forecast)
    {
      var done := false;
      while !done
        invariant WF(View()) && p < |procs| && forecast == old(forecast)
        invariant Resume(old(View()), p) == if done then View() else Resume(View(), p)
        decreases !done, |procs[p].rest|
      {
        assert ProcWF(procs[p], |tokens|);
        if procs[p].rest == [] {
          ReturnFrom(p);
          done := true;
        } else {
          ghost var s := View();
          var e := procs[p].rest[0];
          procs := procs[p := procs[p].(rest := procs[p].rest[1..])];
          assert View() == SetProc(s, p, s.procs[p].(rest := s.procs[p].rest[1..]));
          var bound := AwaitBind(e, procs[p].priority);
          var node, ready := AwaitReady(bound);
          if !ready {
            var id := AwaitSuspend(node, Some(p));
            done := true;
          }
        }
      }
    }

    // ----- public operations -----

    /** Binds a process from outside the simulation. */
    method Launch(body: seq<Await>, start: nat, prio: int, ret: nat, retPrio: int) returns (p: nat)
      requires Valid()
      modifies this
      ensures Valid() && p == |old(procs)|
      ensures View() == KernelTheorems.LaunchProcess(old(View()), body, start, prio, ret, retPrio)
    {
      ghost var a := KernelTheorems.Launch(body, start, prio, ret, retPrio);
      ghost var g := KernelTheorems.LaunchOk(View(), forecast, a);
      p := BindCoroutine(body, start, Resolve(prio, 0));
      var node, ready := AwaitReady(Process(p, ret, retPrio));
      if !ready {
        var id := AwaitSuspend(node, None);
      }
      forecast := g;
    }

    /** The token that `step` pops next, if any. */
    method NextEvent() returns (t: Option<nat>)
      requires Valid()
      ensures t.None? <==> queue == multiset{}
      ensures t.Some? ==> IsTop(View(), t.value)
    {
      if queue == multiset{} {
        t := None;
      } else {
        forall q | q in queue ensures !Bare(tokens[q]) {
          assert KernelInvariant.TokenOk(View(), forecast, q, None);
        }
        ghost var x := KernelRuns.TopExists(tokens, queue);
        var top :| top in queue && forall q | q in queue :: !After(tokens[top], tokens[q]);
        t := Some(top);
      }
    }

    /** Pops and processes one token that is minimal. */
    method StepOnce() returns (ran: bool, ghost t: nat)
      requires Valid()
      modifies this
      ensures Valid()
      ensures ran <==> old(queue) != multiset{}
      ensures !ran ==> View() == old(View()) && forecast == old(forecast)
      ensures ran ==> IsTop(old(View()), t) && View() == Step(old(View()), t)
      ensures ran ==> 0 <= KernelRuns.Left(View(), forecast) < KernelRuns.Left(old(View()), old(forecast))
    {
      ran, t := false, 0;
      var next := NextEvent();
      if next.Some? {
        ran, t := true, next.value;
        ghost var s := View();
        ghost var g := KernelTheorems.PopStepOk(s, forecast, next.value);
        KernelRuns.StepUsesBudget(s, forecast, next.value, g);
        ProcessToken(next.value);
        forecast := g;
      }
    }

    method ProcessToken(t: nat)
      requires WF(View()) && t in queue
      modifies this
      ensures View() == Step(old(View()), t)
      ensures forecast == old(forecast)
    {
      hide Invoke, Resume;
      var tk := tokens[t];
      assert TokenWF(tk, |handlers|, |procs|);
      queue := queue - multiset{t};
      now := if tk.time > now then tk.time else now;
      log := log + [Stepped(t, now)];
      assert WF(View());
      if tk.handler.Some? {
        InvokeHandler(tk.handler.value, t);
      } else if tk.coro.Some? {
        ResumeProcess(tk.coro.value);
      } else if tk.error.Some? {
        escaped := tk.error;
      }
    }

    /** Runs until no token is left; it always comes to an end. */
    method Run() returns (ghost acts: seq<KernelTheorems.Action>)
      requires Valid()
      modifies this
      ensures Valid() && queue == multiset{}
      ensures KernelTheorems.Runs(old(View()), acts, View())
      ensures forall a | a in acts :: a.Pop?
    {
      hide Step, KernelInvariant.TokenOk, KernelInvariant.ResumesOk, KernelInvariant.HandlerOk, KernelInvariant.ProcOk;
      hide KernelInvariant.LogOk;
      acts := [];
      var more := true;
      while more
        invariant Valid() && (more || queue == multiset{})
        invariant KernelTheorems.Runs(old(View()), acts, View())
        invariant forall a | a in acts :: a.Pop?
        decreases KernelRuns.Left(View(), forecast), more
      {
        ghost var s := View();
        ghost var t;
        more, t := StepOnce();
        KernelRuns.LeftIsNat(View(), forecast);
        if more {
          KernelRuns.RunsSnoc(old(View()), acts, s, KernelTheorems.Pop(t));
          acts := acts + [KernelTheorems.Pop(t)];
        }
      }
    }

    /** Runs all that is due by `deadline` and moves the clock there. */
    method RunUntil(deadline: int) returns (ghost ts: seq<nat>)
      requires Valid()
      modifies this
      ensures Valid() && KernelRuns.RunsUntil(old(View()), deadline, ts, View())
    {
      hide Step, KernelInvariant.TokenOk, KernelInvariant.ResumesOk, KernelInvariant.HandlerOk, KernelInvariant.ProcOk;
      hide KernelInvariant.LogOk;
      ts := [];
      var next := NextEvent();
      while next.Some? && tokens[next.value].time <= deadline
        invariant Valid() && KernelRuns.Steps(old(View()), deadline, ts, View())
        invariant next.None? <==> queue == multiset{}
        invariant next.Some? ==> IsTop(View(), next.value)
        decreases KernelRuns.Left(View(), forecast)
      {
        ghost var s := View();
        var ran;
        ghost var t;
        ran, t := StepOnce();
        assert !After(s.tokens[t], s.tokens[next.value]);
        KernelRuns.StepsSnoc(old(View()), deadline, ts, s, t);
        ts := ts + [t];
        next := NextEvent();
      }
      forall q | q in queue ensures tokens[q].time > deadline {
        assert !After(tokens[next.value], tokens[q]);
      }
      KernelRuns.StepsThenStop(old(View()), deadline, ts, View());
      KernelTheorems.IdleOk(View(), forecast, deadline);
      now := if deadline > now then deadline else now;
    }

    method RunFor(duration: int) returns (ghost ts: seq<nat>)
      requires Valid()
      modifies this
      ensures Valid() && KernelRuns.RunsFor(old(View()), duration, ts, View())
    {
      hide KernelInvariant.Valid, KernelRuns.RunsUntil;
      ts := RunUntil(now + duration);
    }

    /** Destroys each managed process that is not complete, exactly once, and
        drops all queued tokens. */
    method Reset() returns (ghost destroyed: seq<nat>)
      requires Valid()
      modifies this
      ensures now == 0 && queue == multiset{} && managed == {}
      ensures forall p :: p in destroyed <==> p in old(managed)
      ensures forall i, j | 0 <= i < j < |destroyed| :: destroyed[i] != destroyed[j]
      ensures |procs| == |old(procs)| && forall p | 0 <= p < |procs| :: procs[p] == old(procs)[p].(complete := true)
    {
      forall p | 0 <= p < |procs| ensures p in managed <==> !procs[p].complete {
        assert KernelInvariant.ProcOk(View(), forecast, p, None);
      }
      destroyed := DestroyManaged();
      while queue != multiset{}
        modifies this`queue
        decreases queue
      {
        var t :| t in queue;
        queue := queue - multiset{t};
      }
      now := 0;
    }

    method DestroyManaged() returns (ghost destroyed: seq<nat>)
      requires forall p | p in managed :: p < |procs|
      requires forall p | 0 <= p < |procs| :: p in managed <==> !procs[p].complete
      modifies this`procs, this`managed
      ensures managed == {}
      ensures forall p :: p in destroyed <==> p in old(managed)
      ensures forall i, j | 0 <= i < j < |destroyed| :: destroyed[i] != destroyed[j]
      ensures |procs| == |old(procs)| && forall p | 0 <= p < |procs| :: procs[p] == old(procs)[p].(complete := true)
    {
      destroyed := [];
      var coroutines := managed;
      managed := {};
      while coroutines != {}
        invariant managed == {} && |procs| == |old(procs)|
        invariant forall p :: p in old(managed) <==> p in coroutines || p in destroyed
        invariant forall p | p in coroutines :: p !in destroyed
        invariant forall i, j | 0 <= i < j < |destroyed| :: destroyed[i] != destroyed[j]
        invariant forall p | 0 <= p < |procs| ::
          procs[p] == if p in destroyed then old(procs)[p].(complete := true) else old(procs)[p]
        decreases coroutines
      {
        var p :| p in coroutines;
        assert p in old(managed) && !procs[p].complete;
        coroutines := coroutines - {p};
        if !procs[p].complete {
          procs := procs[p := procs[p].(complete := true)];
          destroyed := destroyed + [p];
        }
      }
    }
  }
}
