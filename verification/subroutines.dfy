/** Bodies of coroutines and subroutines, and what they mean as structured
    programs: a call runs its callee to the end, a return or an exception goes
    to the caller. */
module Subroutines {
  import opened Options

  datatype Expr = Num(n: int) | Var(x: string) | Plus(a: Expr, b: Expr)

  /** `Await` suspends the whole process; `Call` awaits a subroutine with one
      argument and keeps its result in `x`. */
  datatype Stmt =
    | Skip
    | Emit(e: Expr)
    | Assign(x: string, e: Expr)
    | Await
    | Call(x: string, param: string, arg: Expr, body: Stmt)
    | Return(e: Expr)
    | Throw(e: Expr)
    | Try(s: Stmt, x: string, handler: Stmt)
    | Seq(s1: Stmt, s2: Stmt)
    | If(e: Expr, s1: Stmt, s2: Stmt)

  type Env = map<string, int>

  datatype Event = Effect(v: int) | Suspended

  function ValueOf(e: Expr, env: Env): int {
    match e
    case Num(n) => n
    case Var(x) => if x in env then env[x] else 0
    case Plus(a, b) => ValueOf(a, env) + ValueOf(b, env)
  }

  // ----- the recursive evaluator -----

  datatype Outcome = Normal(env: Env) | Returned(v: int) | Threw(v: int, env: Env)

  datatype Evaluation = Evaluation(events: seq<Event>, outcome: Outcome)

  function Eval(s: Stmt, env: Env): Evaluation {
    match s
    case Skip => Evaluation([], Normal(env))
    case Emit(e) => Evaluation([Effect(ValueOf(e, env))], Normal(env))
    case Assign(x, e) => Evaluation([], Normal(env[x := ValueOf(e, env)]))
    case Await => Evaluation([Suspended], Normal(env))
    case Call(x, param, arg, body) =>
      var r := Eval(body, map[param := ValueOf(arg, env)]);
      Evaluation(r.events,
                 match r.outcome
                 case Normal(_) => Normal(env[x := 0])
                 case Returned(v) => Normal(env[x := v])
                 case Threw(v, _) => Threw(v, env))
    case Return(e) => Evaluation([], Returned(ValueOf(e, env)))
    case Throw(e) => Evaluation([], Threw(ValueOf(e, env), env))
    case Try(s1, x, handler) =>
      var r := Eval(s1, env);
      if r.outcome.Threw? then
        var r2 := Eval(handler, r.outcome.env[x := r.outcome.v]);
        Evaluation(r.events + r2.events, r2.outcome)
      else r
    case Seq(s1, s2) =>
      var r := Eval(s1, env);
      if r.outcome.Normal? then
        var r2 := Eval(s2, r.outcome.env);
        Evaluation(r.events + r2.events, r2.outcome)
      else r
    case If(e, s1, s2) => if ValueOf(e, env) != 0 then Eval(s1, env) else Eval(s2, env)
  }

  /** What the promise of a finished frame holds. */
  datatype Result = Value(v: int) | Exception(v: int)

  datatype Run = Run(events: seq<Event>, result: Result)

  /** A whole body, as its caller sees it. */
  function CallResult(body: Stmt, env: Env): Run {
    var r := Eval(body, env);
    Run(r.events, match r.outcome
                  case Normal(_) => Value(0)
                  case Returned(v) => Value(v)
                  case Threw(v, _) => Exception(v))
  }

  // ----- the rest of a suspended frame -----

  /** What is left to do inside one frame; `Catch` marks the end of a try block. */
  datatype Kont = Do(s: Stmt) | Catch(x: string, handler: Stmt)

  function Size(s: Stmt): nat {
    match s
    case Call(_, _, _, body) => 3 + Size(body)
    case Try(s1, _, h) => 3 + Size(s1) + Size(h)
    case Seq(s1, s2) => 2 + Size(s1) + Size(s2)
    case If(_, s1, s2) => 1 + Size(s1) + Size(s2)
    case _ => 1
  }

  function KontSize(k: Kont): nat {
    if k.Do? then 1 + Size(k.s) else 2 + Size(k.handler)
  }

  function KontsSize(ks: seq<Kont>): nat {
    if ks == [] then 0 else KontSize(ks[0]) + KontsSize(ks[1..])
  }

  function After(events: seq<Event>, r: Run): Run {
    Run(events + r.events, r.result)
  }

  /** Carrying out `ks` in turn. */
  function Continue(ks: seq<Kont>, env: Env): Run
    decreases KontsSize(ks)
  {
    if ks == [] then Run([], Value(0))
    else
      match ks[0]
      case Catch(_, _) => Continue(ks[1..], env)
      case Do(s) =>
        var r := Eval(s, env);
        match r.outcome
        case Normal(env') => After(r.events, Continue(ks[1..], env'))
        case Returned(v) => Run(r.events, Value(v))
        case Threw(v, env') => After(r.events, Raise(ks[1..], v, env'))
  }

  /** Leaving `ks` by an exception. */
  function Raise(ks: seq<Kont>, v: int, env: Env): Run
    decreases KontsSize(ks)
  {
    if ks == [] then Run([], Exception(v))
    else
      match ks[0]
      case Do(_) => Raise(ks[1..], v, env)
      case Catch(x, handler) => Continue([Do(handler)] + ks[1..], env[x := v])
  }

  lemma ContinueBody(body: Stmt, env: Env)
    ensures Continue([Do(body)], env) == CallResult(body, env)
  {
    var r := Eval(body, env);
    assert [Do(body)][1..] == [];
    assert r.events + [] == r.events;
  }

  // ----- how one statement unfolds -----

  lemma ContinueSeq(s1: Stmt, s2: Stmt, ks: seq<Kont>, env: Env)
    ensures Continue([Do(Seq(s1, s2))] + ks, env) == Continue([Do(s1), Do(s2)] + ks, env)
  {
    var r := Eval(s1, env);
    var all := [Do(s1), Do(s2)] + ks;
    assert all[1..] == [Do(s2)] + ks;
    assert ([Do(s2)] + ks)[1..] == ks;
    assert ([Do(Seq(s1, s2))] + ks)[1..] == ks;
    if r.outcome.Normal? {
      var r2 := Eval(s2, r.outcome.env);
      AfterAfter(r.events, r2.events);
    }
  }

  lemma ContinueTry(s: Stmt, x: string, handler: Stmt, ks: seq<Kont>, env: Env)
    ensures Continue([Do(Try(s, x, handler))] + ks, env) == Continue([Do(s), Catch(x, handler)] + ks, env)
  {
    var r := Eval(s, env);
    var all := [Do(s), Catch(x, handler)] + ks;
    assert all[1..] == [Catch(x, handler)] + ks;
    assert ([Catch(x, handler)] + ks)[1..] == ks;
    assert ([Do(handler)] + ks)[1..] == ks;
    assert ([Do(Try(s, x, handler))] + ks)[1..] == ks;
    if r.outcome.Threw? {
      var env' := r.outcome.env[x := r.outcome.v];
      var r2 := Eval(handler, env');
      AfterAfter(r.events, r2.events);
      assert Raise([Catch(x, handler)] + ks, r.outcome.v, r.outcome.env) == Continue([Do(handler)] + ks, env');
    } else if r.outcome.Normal? {
      assert Continue([Catch(x, handler)] + ks, r.outcome.env) == Continue(ks, r.outcome.env);
    }
  }

  lemma AfterAfter(a: seq<Event>, b: seq<Event>)
    ensures forall r: Run :: After(a, After(b, r)) == After(a + b, r)
  {
    forall r: Run ensures After(a, After(b, r)) == After(a + b, r) {
      assert a + (b + r.events) == (a + b) + r.events;
    }
  }

  // ----- running one frame -----

  /** Where an exception takes a frame: to the innermost handler, or out. */
  function Unwind(ks: seq<Kont>, v: int, env: Env): (r: Option<(seq<Kont>, Env)>)
    ensures r.Some? ==> KontsSize(r.value.0) < KontsSize(ks)
  {
    if ks == [] then None
    else if ks[0].Catch? then
      assert ([Do(ks[0].handler)] + ks[1..])[1..] == ks[1..];
      Some(([Do(ks[0].handler)] + ks[1..], env[ks[0].x := v]))
    else Unwind(ks[1..], v, env)
  }

  lemma {:induction false} UnwindIsRaise(ks: seq<Kont>, v: int, env: Env)
    ensures Raise(ks, v, env) ==
      match Unwind(ks, v, env)
      case None => Run([], Exception(v))
      case Some(r) => Continue(r.0, r.1)
  {
    if ks != [] && ks[0].Do? {
      UnwindIsRaise(ks[1..], v, env);
    }
  }

  /** What a running frame does next. `ks` is what is left afterwards. */
  datatype Micro =
    | Goes(ks: seq<Kont>, env: Env)
    | Emits(v: int, ks: seq<Kont>)
    | Suspends(ks: seq<Kont>)
    | Calls(x: string, body: Stmt, arg: Env, ks: seq<Kont>)
    | Finishes(r: Result)

  function Thrown(ks: seq<Kont>, v: int, env: Env): Micro {
    match Unwind(ks, v, env)
    case None => Finishes(Exception(v))
    case Some(r) => Goes(r.0, r.1)
  }

  function Next(ks: seq<Kont>, env: Env): Micro {
    if ks == [] then Finishes(Value(0))
    else
      var rest := ks[1..];
      match ks[0]
      case Catch(_, _) => Goes(rest, env)
      case Do(Skip) => Goes(rest, env)
      case Do(Emit(e)) => Emits(ValueOf(e, env), rest)
      case Do(Assign(x, e)) => Goes(rest, env[x := ValueOf(e, env)])
      case Do(Await) => Suspends(rest)
      case Do(Call(x, param, arg, body)) => Calls(x, body, map[param := ValueOf(arg, env)], rest)
      case Do(Return(e)) => Finishes(Value(ValueOf(e, env)))
      case Do(Throw(e)) => Thrown(rest, ValueOf(e, env), env)
      case Do(Try(s, x, handler)) => Goes([Do(s), Catch(x, handler)] + rest, env)
      case Do(Seq(s1, s2)) => Goes([Do(s1), Do(s2)] + rest, env)
      case Do(If(e, s1, s2)) => Goes([Do(if ValueOf(e, env) != 0 then s1 else s2)] + rest, env)
  }

  /** The caller goes on with the result of the subroutine it awaited as `x`. */
  function Deliver(ks: seq<Kont>, env: Env, x: string, r: Result): Run {
    match r
    case Value(v) => Continue(ks, env[x := v])
    case Exception(v) => Raise(ks, v, env)
  }

  lemma SizeOfTwo(a: Kont, b: Kont, ks: seq<Kont>)
    ensures KontsSize([a, b] + ks) == KontSize(a) + KontSize(b) + KontsSize(ks)
    ensures KontsSize([a] + ks) == KontSize(a) + KontsSize(ks)
  {
    assert ([a, b] + ks)[1..] == [b] + ks && ([b] + ks)[1..] == ks && ([a] + ks)[1..] == ks;
  }

  /** `m` carries out the first part of what `ks` leaves to do. */
  ghost predicate Carries(ks: seq<Kont>, env: Env, m: Micro) {
    match m
    case Goes(ks', env') =>
      Continue(ks, env) == Continue(ks', env') && KontsSize(ks') < KontsSize(ks)
    case Emits(v, ks') =>
      Continue(ks, env) == After([Effect(v)], Continue(ks', env)) && KontsSize(ks') < KontsSize(ks)
    case Suspends(ks') =>
      Continue(ks, env) == After([Suspended], Continue(ks', env)) && KontsSize(ks') < KontsSize(ks)
    case Calls(x, body, arg, ks') =>
      && Continue(ks, env) == After(CallResult(body, arg).events, Deliver(ks', env, x, CallResult(body, arg).result))
      && KontsSize(ks') + KontsSize([Do(body)]) + 2 <= KontsSize(ks)
    case Finishes(r) => Continue(ks, env) == Run([], r)
  }

  lemma SimpleCarries(s: Stmt, rest: seq<Kont>, env: Env)
    requires s.Skip? || s.Emit? || s.Assign? || s.Await? || s.Return?
    ensures Carries([Do(s)] + rest, env, Next([Do(s)] + rest, env))
  {
    AfterNothing();
    assert ([Do(s)] + rest)[1..] == rest;
  }

  lemma CallCarries(s: Stmt, rest: seq<Kont>, env: Env)
    requires s.Call?
    ensures Carries([Do(s)] + rest, env, Next([Do(s)] + rest, env))
  {
    assert ([Do(s)] + rest)[1..] == rest;
    SizeOfTwo(Do(s.body), Do(s.body), []);
    assert [Do(s.body)] + [] == [Do(s.body)];
  }

  lemma ThrowCarries(s: Stmt, rest: seq<Kont>, env: Env)
    requires s.Throw?
    ensures Carries([Do(s)] + rest, env, Next([Do(s)] + rest, env))
  {
    AfterNothing();
    assert ([Do(s)] + rest)[1..] == rest;
    UnwindIsRaise(rest, ValueOf(s.e, env), env);
  }

  lemma TryCarries(s: Stmt, rest: seq<Kont>, env: Env)
    requires s.Try?
    ensures Carries([Do(s)] + rest, env, Next([Do(s)] + rest, env))
  {
    assert ([Do(s)] + rest)[1..] == rest;
    ContinueTry(s.s, s.x, s.handler, rest, env);
    SizeOfTwo(Do(s.s), Catch(s.x, s.handler), rest);
  }

  lemma SeqCarries(s: Stmt, rest: seq<Kont>, env: Env)
    requires s.Seq?
    ensures Carries([Do(s)] + rest, env, Next([Do(s)] + rest, env))
  {
    assert ([Do(s)] + rest)[1..] == rest;
    ContinueSeq(s.s1, s.s2, rest, env);
    SizeOfTwo(Do(s.s1), Do(s.s2), rest);
  }

  lemma IfCarries(s: Stmt, rest: seq<Kont>, env: Env)
    requires s.If?
    ensures Carries([Do(s)] + rest, env, Next([Do(s)] + rest, env))
  {
    var s' := if ValueOf(s.e, env) != 0 then s.s1 else s.s2;
    assert ([Do(s)] + rest)[1..] == rest && ([Do(s')] + rest)[1..] == rest;
  }

  lemma NextCarries(ks: seq<Kont>, env: Env)
    ensures Carries(ks, env, Next(ks, env))
  {
    if ks != [] && ks[0].Do? {
      hide Carries, Next;
      var s, rest := ks[0].s, ks[1..];
      assert ks == [Do(s)] + rest;
      if s.Call? { CallCarries(s, rest, env); }
      else if s.Throw? { ThrowCarries(s, rest, env); }
      else if s.Try? { TryCarries(s, rest, env); }
      else if s.Seq? { SeqCarries(s, rest, env); }
      else if s.If? { IfCarries(s, rest, env); }
      else { SimpleCarries(s, rest, env); }
    }
  }

  lemma AfterNothing()
    ensures forall r: Run :: After([], r) == r
  {
    forall r: Run ensures After([], r) == r {
      assert [] + r.events == r.events;
    }
  }
}
