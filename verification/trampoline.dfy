/** The explicit coroutine stack: one process whose subroutine calls are frames
    on `callStack`, driven by a loop instead of by nested calls. */
module Trampoline {
  import opened Options
  import opened Subroutines

  /** A coroutine frame and its promise. `awaits` is the variable and the frame
      of the subroutine that the frame has called; `result` is what the promise
      holds once the frame has finished. */
  datatype Frame = Frame(konts: seq<Kont>, env: Env, awaits: Option<(string, nat)>, result: Option<Result>)

  /** What the frame goes on to do when the subroutine it awaits yields `r`. */
  function Resumed(f: Frame, r: Result): Run {
    match f.awaits
    case Some(call) => Deliver(f.konts, f.env, call.0, r)
    case None => Continue(f.konts, f.env)
  }

  /** What the frames on `stack` do, last one first, when the call that the last
      one is waiting for yields `r`. */
  function Below(frames: seq<Frame>, stack: seq<nat>, r: Result): Run
    requires forall i | 0 <= i < |stack| :: stack[i] < |frames|
  {
    if stack == [] then Run([], r)
    else
      var run := Resumed(frames[stack[|stack| - 1]], r);
      After(run.events, Below(frames, stack[..|stack| - 1], run.result))
  }

  /** What the frame on top does when it is resumed. */
  function Top(frames: seq<Frame>, h: nat): Run
    requires h < |frames|
  {
    var f := frames[h];
    if f.awaits.Some? && f.awaits.value.1 < |frames| && frames[f.awaits.value.1].result.Some?
    then Resumed(f, frames[f.awaits.value.1].result.value)
    else Continue(f.konts, f.env)
  }

  function Work(frames: seq<Frame>, stack: seq<nat>): nat
    requires forall i | 0 <= i < |stack| :: stack[i] < |frames|
  {
    if stack == [] then 0
    else 1 + KontsSize(frames[stack[|stack| - 1]].konts) + Work(frames, stack[..|stack| - 1])
  }

  /** Frames that are not on the stack do not matter to it. */
  lemma {:induction false} BelowFrame(a: seq<Frame>, b: seq<Frame>, stack: seq<nat>, r: Result)
    requires forall i | 0 <= i < |stack| :: stack[i] < |a| && stack[i] < |b| && a[stack[i]] == b[stack[i]]
    ensures Below(a, stack, r) == Below(b, stack, r) && Work(a, stack) == Work(b, stack)
  {
    if stack != [] {
      var run := Resumed(a[stack[|stack| - 1]], r);
      BelowFrame(a, b, stack[..|stack| - 1], run.result);
    }
  }

  lemma BelowNothing(frames: seq<Frame>, r: Result)
    ensures Below(frames, [], r) == Run([], r)
  {
  }

  /** The stack after the frame above it has finished with `r`. */
  lemma FinishShape(frames: seq<Frame>, lower: seq<nat>, h: nat, r: Result)
    requires lower != [] && h < |frames| && forall i | 0 <= i < |lower| :: lower[i] < |frames|
    requires var f := frames[lower[|lower| - 1]];
      f.awaits.Some? && f.awaits.value.1 == h && frames[h].result == Some(r)
    ensures var run := Top(frames, lower[|lower| - 1]);
      Below(frames, lower, r) == After(run.events, Below(frames, lower[..|lower| - 1], run.result))
  {
  }

  /** The stack after the frame on top has called a subroutine. */
  lemma CallShape(a: seq<Frame>, b: seq<Frame>, stack: seq<nat>, x: string, body: Stmt, arg: Env, ks: seq<Kont>)
    requires stack != [] && forall i | 0 <= i < |stack| :: stack[i] < |a|
    requires stack[|stack| - 1] !in stack[..|stack| - 1]
    requires var h := stack[|stack| - 1];
      b == a[h := a[h].(konts := ks, awaits := Some((x, |a|)))] + [Frame([Do(body)], arg, None, None)]
    requires KontsSize(ks) + KontsSize([Do(body)]) + 2 <= KontsSize(a[stack[|stack| - 1]].konts)
    ensures forall i | 0 <= i < |stack + [|a|]| :: (stack + [|a|])[i] < |b|
    ensures Top(b, |a|) == CallResult(body, arg)
    ensures var run := Deliver(ks, a[stack[|stack| - 1]].env, x, CallResult(body, arg).result);
      Below(b, stack, CallResult(body, arg).result)
        == After(run.events, Below(a, stack[..|stack| - 1], run.result))
    ensures Work(b, stack + [|a|]) < Work(a, stack)
  {
    hide Continue, Eval, Raise, KontsSize, CallResult, Deliver;
    var h, lower := stack[|stack| - 1], stack[..|stack| - 1];
    var run := Deliver(ks, a[h].env, x, CallResult(body, arg).result);
    ContinueBody(body, arg);
    forall i | 0 <= i < |lower| ensures a[lower[i]] == b[lower[i]] {
      assert lower[i] in lower;
    }
    BelowFrame(a, b, lower, run.result);
    assert (stack + [|a|])[..|stack|] == stack;
    assert Work(b, stack + [|a|]) == 1 + KontsSize([Do(body)]) + Work(b, stack);
    assert Work(b, stack) == 1 + KontsSize(ks) + Work(b, lower);
  }

  /** The events up to and including the first suspension. */
  function Segment(es: seq<Event>): seq<Event> {
    if es == [] then []
    else if es[0].Suspended? then [es[0]]
    else [es[0]] + Segment(es[1..])
  }

  lemma {:induction false} SegmentEnds(done: seq<Event>, rest: seq<Event>)
    requires Suspended !in done
    ensures Segment(done + [Suspended] + rest) == done + [Suspended]
    ensures Segment(done) == done
  {
    if done == [] {
      assert (done + [Suspended] + rest)[0] == Suspended;
    } else {
      assert (done + [Suspended] + rest)[0] == done[0] && done[0] in done;
      assert (done + [Suspended] + rest)[1..] == done[1..] + [Suspended] + rest;
      SegmentEnds(done[1..], rest);
    }
  }

  lemma {:induction false} SegmentIsPrefix(es: seq<Event>)
    ensures Segment(es) <= es && (Segment(es) == [] ==> es == [])
    ensures Suspended in es ==> Segment(es) != []
  {
    if es != [] && !es[0].Suspended? {
      SegmentIsPrefix(es[1..]);
    }
  }

  /** The stack matches the pending calls: each frame but the last awaits exactly the
      next one. */
  ghost predicate Linked(frames: seq<Frame>, stack: seq<nat>) {
    && stack != [] && stack[0] == 0
    && (forall i | 0 <= i < |stack| :: stack[i] < |frames|)
    && (forall i, j | 0 <= i < j < |stack| :: stack[i] < stack[j])
    && (forall i | 0 <= i < |stack| - 1 ::
          frames[stack[i]].awaits.Some? && frames[stack[i]].awaits.value.1 == stack[i + 1])
  }

  ghost predicate Unfinished(frames: seq<Frame>, stack: seq<nat>)
    requires Linked(frames, stack)
  {
    forall i | 0 <= i < |stack| :: frames[stack[i]].result.None?
  }

  /** What is left of the stack when the frame on top has finished. */
  lemma LowerLinked(a: seq<Frame>, b: seq<Frame>, stack: seq<nat>, r: Result)
    requires Linked(a, stack) && Unfinished(a, stack) && |stack| > 1
    requires var h := stack[|stack| - 1]; b == a[h := a[h].(result := Some(r))]
    ensures var lower, h := stack[..|stack| - 1], stack[|stack| - 1];
      && Linked(b, lower) && Unfinished(b, lower)
      && (forall i | 0 <= i < |lower| :: lower[i] < |a| && b[lower[i]] == a[lower[i]] && lower[i] < h)
      && b[lower[|lower| - 1]].awaits.Some? && b[lower[|lower| - 1]].awaits.value.1 == h
      && b[h].result == Some(r)
  {
    var lower, h := stack[..|stack| - 1], stack[|stack| - 1];
    forall i | 0 <= i < |lower| ensures lower[i] == stack[i] && lower[i] < h {}
  }

  /** The frame on top may change, but for its result. */
  lemma TopMayChange(a: seq<Frame>, stack: seq<nat>, f: Frame)
    requires Linked(a, stack) && Unfinished(a, stack) && f.result.None?
    ensures var h := stack[|stack| - 1];
      && Linked(a[h := f], stack) && Unfinished(a[h := f], stack) && |a[h := f]| == |a|
      && forall i | 0 <= i < |stack| - 1 :: stack[i] < |a| && stack[..|stack| - 1][i] == stack[i] != h
  {
  }

  /** What is left after the first segment `es` of `all`. */
  lemma SegmentTaken(all: Run, es: seq<Event>, rest: Run, complete: bool)
    requires Suspended !in es && all == After(if complete then es else es + [Suspended], rest)
    requires complete ==> rest.events == []
    ensures Segment(all.events) == if complete then es else es + [Suspended]
    ensures |Segment(all.events)| <= |all.events|
    ensures rest == Run(all.events[|Segment(all.events)|..], all.result)
    ensures complete <==> Suspended !in all.events
  {
    SegmentEnds(es, rest.events);
    if complete {
      assert all.events == es;
    } else {
      assert all.events == es + [Suspended] + rest.events;
    }
  }

  class CoroutineData {
    var frames: seq<Frame>
    var callStack: seq<nat>
    var shouldContinue: bool
    var complete: bool
    var outcome: Option<Result>
    ghost var trace: seq<Event>

    ghost predicate Valid()
      reads this`frames, this`callStack, this`complete, this`outcome
    {
      && Linked(frames, callStack)
      && (!complete ==> Unfinished(frames, callStack))
      && (complete ==> |callStack| == 1 && outcome.Some?)
    }

    ghost function TopFrame(): nat
      reads this`callStack
      requires callStack != []
    {
      callStack[|callStack| - 1]
    }

    /** The subroutine that the frame on top awaits, if any, has finished. */
    ghost predicate Settled()
      reads this`frames, this`callStack, this`complete, this`outcome
      requires Valid()
    {
      var a := frames[TopFrame()].awaits;
      a.Some? ==> a.value.1 < |frames| && frames[a.value.1].result.Some?
    }

    /** All that the process has still to do. */
    ghost function Rest(): Run
      reads this`frames, this`callStack, this`complete, this`outcome
      requires Valid()
    {
      if complete then Run([], outcome.value)
      else
        var run := Top(frames, TopFrame());
        After(run.events, Below(frames, callStack[..|callStack| - 1], run.result))
    }

    ghost function Size(): nat
      reads this`frames, this`callStack, this`complete, this`outcome
      requires Valid()
    {
      Work(frames, callStack)
    }

    lemma RestWhenComplete()
      requires Valid() && complete
      ensures Rest() == Run([], outcome.value)
    {
    }

    lemma RestWhenRunning()
      requires Valid() && !complete && frames[TopFrame()].awaits.None?
      ensures var run := Continue(frames[TopFrame()].konts, frames[TopFrame()].env);
        Rest() == After(run.events, Below(frames, callStack[..|callStack| - 1], run.result))
    {
    }

    lemma RestWhenSettled()
      requires Valid() && !complete && Settled() && frames[TopFrame()].awaits.Some?
      ensures var f := frames[TopFrame()];
        var run := Deliver(f.konts, f.env, f.awaits.value.0, frames[f.awaits.value.1].result.value);
        Rest() == After(run.events, Below(frames, callStack[..|callStack| - 1], run.result))
    {
    }

    constructor (body: Stmt, env: Env)
      ensures Valid() && Settled() && !complete && trace == []
      ensures Rest() == CallResult(body, env)
    {
      frames := [Frame([Do(body)], env, None, None)];
      callStack, shouldContinue := [0], true;
      complete, outcome, trace := false, None, [];
      new;
      ContinueBody(body, env);
    }

    method PushCoro(h: nat)
      modifies this`callStack, this`shouldContinue
      ensures callStack == old(callStack) + [h] && shouldContinue
    {
      callStack := callStack + [h];
      shouldContinue := true;
    }

    method PopCoro()
      requires callStack != []
      modifies this`callStack, this`shouldContinue
      ensures callStack == old(callStack)[..|old(callStack)| - 1] && shouldContinue
    {
      callStack := callStack[..|callStack| - 1];
      shouldContinue := true;
    }

    /** The process itself finishes; its frame stays on the stack. */
    method FinishProcess(r: Result)
      requires Valid() && !complete && !shouldContinue && |callStack| == 1
      modifies this
      ensures Valid() && trace == old(trace) && complete && !shouldContinue
      ensures Rest() == Run([], r)
    {
      frames := frames[callStack[0] := frames[callStack[0]].(result := Some(r))];
      outcome := Some(r);
      complete := true;
    }

    /** A subroutine finishes and is popped, and its caller is to be resumed. */
    method FinishSubroutine(r: Result)
      requires Valid() && !complete && !shouldContinue && |callStack| > 1
      modifies this`frames, this`callStack, this`shouldContinue
      ensures Valid() && shouldContinue && Settled() && Size() < old(Size())
      ensures Rest() == Below(old(frames), old(callStack)[..|old(callStack)| - 1], r)
    {
      hide Continue, Eval, Raise, KontsSize, Deliver, Below, Resumed, After, Top;
      var h := callStack[|callStack| - 1];
      ghost var lower := callStack[..|callStack| - 1];
      frames := frames[h := frames[h].(result := Some(r))];
      LowerLinked(old(frames), frames, callStack, r);
      hide Linked, Unfinished;
      BelowFrame(old(frames), frames, lower, r);
      PopCoro();
      FinishShape(frames, lower, h, r);
    }

    /** The frame on top finishes: its promise takes `r`. The process itself
        completes; a subroutine is popped, and its caller is to be resumed. */
    method Finish(r: Result)
      requires Valid() && !complete && !shouldContinue
      modifies this
      ensures Valid() && trace == old(trace)
      ensures Rest() == Below(old(frames), old(callStack)[..|old(callStack)| - 1], r)
      ensures complete == (|old(callStack)| == 1) && shouldContinue == !complete
      ensures !complete ==> Settled() && Size() < old(Size())
    {
      assert callStack != [];
      hide Below, Rest, Size;
      if |callStack| == 1 {
        BelowNothing(frames, r);
        assert callStack[..|callStack| - 1] == [];
        FinishProcess(r);
      } else {
        FinishSubroutine(r);
      }
    }

    /** The frame on top calls a subroutine. */
    method CallSubroutine(x: string, body: Stmt, arg: Env, ks: seq<Kont>)
      requires Valid() && !complete
      requires frames[TopFrame()].awaits.None?
      requires KontsSize(ks) + KontsSize([Do(body)]) + 2 <= KontsSize(frames[TopFrame()].konts)
      modifies this
      ensures Valid() && !complete && Settled() && trace == old(trace) && shouldContinue
      ensures var run := Deliver(ks, old(frames[TopFrame()]).env, x, CallResult(body, arg).result);
        Rest() == After(CallResult(body, arg).events,
                        After(run.events, Below(old(frames), old(callStack)[..|old(callStack)| - 1], run.result)))
      ensures Size() < old(Size())
    {
      hide Continue, Eval, Raise, CallResult, KontsSize, Deliver, Below, Work, Top, After;
      var h := callStack[|callStack| - 1];
      var child := |frames|;
      frames := frames[h := frames[h].(konts := ks, awaits := Some((x, child)))] + [Frame([Do(body)], arg, None, None)];
      PushCoro(child);
      assert callStack[..|callStack| - 1] == old(callStack);
      CallShape(old(frames), frames, old(callStack), x, body, arg, ks);
    }

    /** The frame on top goes on to `ks` and `env`. */
    method Advance(ks: seq<Kont>, env: Env)
      requires Valid() && !complete
      requires KontsSize(ks) <= KontsSize(frames[TopFrame()].konts)
      modifies this`frames
      ensures Valid() && frames[TopFrame()].konts == ks && frames[TopFrame()].env == env
      ensures frames[TopFrame()].awaits.None?
      ensures var run := Continue(ks, env);
        Rest() == After(run.events, Below(old(frames), callStack[..|callStack| - 1], run.result))
      ensures Size() == old(Size()) - KontsSize(old(frames[TopFrame()]).konts) + KontsSize(ks)
    {
      hide Continue, Eval, Raise, KontsSize, Deliver, Below, After, Resumed;
      var h := callStack[|callStack| - 1];
      ghost var lower := callStack[..|callStack| - 1];
      TopMayChange(frames, callStack, frames[h].(konts := ks, env := env, awaits := None));
      frames := frames[h := frames[h].(konts := ks, env := env, awaits := None)];
      ghost var run := Continue(ks, env);
      BelowFrame(old(frames), frames, lower, run.result);
    }

    /** The frame on top takes the result of the subroutine it awaited: the
        value, or the exception, which may end the frame at once. */
    method AwaitResume() returns (running: bool)
      requires Valid() && !complete && Settled() && !shouldContinue
      modifies this
      ensures Valid() && trace == old(trace) && Rest() == old(Rest())
      ensures running ==> !complete && !shouldContinue && frames[TopFrame()].awaits.None? && Size() <= old(Size())
      ensures !running ==> shouldContinue == !complete
      ensures !running && !complete ==> Settled() && Size() < old(Size())
    {
      hide Continue, Eval, Raise, Below, Work, KontsSize, Rest, Size, Unwind;
      var h := callStack[|callStack| - 1];
      var f := frames[h];
      running := true;
      if f.awaits.Some? {
        RestWhenSettled();
        match frames[f.awaits.value.1].result.value
        case Value(v) => Advance(f.konts, f.env[f.awaits.value.0 := v]);
        case Exception(v) =>
          UnwindIsRaise(f.konts, v, f.env);
          match Unwind(f.konts, v, f.env)
          case Some(r) => Advance(r.0, r.1);
          case None =>
            AfterNothing();
            Finish(Exception(v));
            running := false;
      }
    }

    /** The frame on top does one thing, which `e` shows: it goes on running,
        suspends the process, calls a subroutine, or finishes. */
    method MicroStep() returns (running: bool, ghost e: seq<Event>)
      requires Valid() && !complete && !shouldContinue && frames[TopFrame()].awaits.None?
      modifies this
      ensures Valid() && trace == old(trace) + e && old(Rest()) == After(e, Rest())
      ensures running ==> !complete && !shouldContinue && frames[TopFrame()].awaits.None? && Size() < old(Size())
      ensures running ==> Suspended !in e
      ensures !running ==> e == (if shouldContinue || complete then [] else [Suspended])
      ensures !(shouldContinue && complete)
      ensures !running && !complete ==> Settled()
      ensures shouldContinue ==> Size() < old(Size())
    {
      hide Continue, Next, Deliver, CallResult, Below, Rest, Size;
      running, e := false, [];
      AfterNothing();
      RestWhenRunning();
      var f := frames[callStack[|callStack| - 1]];
      NextCarries(f.konts, f.env);
      match Next(f.konts, f.env)
      case Goes(ks, env) =>
        Proceed(ks, env, []);
        running := true;
      case Emits(v, ks) =>
        e := [Effect(v)];
        Proceed(ks, f.env, e);
        running := true;
      case Suspends(ks) =>
        e := [Suspended];
        Proceed(ks, f.env, e);
      case Calls(x, body, arg, ks) =>
        ghost var r := CallResult(body, arg);
        AfterAfter(r.events, Deliver(ks, f.env, x, r.result).events);
        CallSubroutine(x, body, arg, ks);
      case Finishes(r) =>
        Finish(r);
    }

    /** The frame on top goes on to `ks` and `env`, showing `e`. */
    method Proceed(ks: seq<Kont>, env: Env, ghost e: seq<Event>)
      requires Valid() && !complete && frames[TopFrame()].awaits.None?
      requires Continue(frames[TopFrame()].konts, frames[TopFrame()].env) == After(e, Continue(ks, env))
      requires KontsSize(ks) < KontsSize(frames[TopFrame()].konts)
      modifies this`frames, this`trace
      ensures Valid() && frames[TopFrame()].awaits.None?
      ensures trace == old(trace) + e && old(Rest()) == After(e, Rest())
      ensures Size() < old(Size())
    {
      hide Continue, Below, Rest, Size, Deliver;
      RestWhenRunning();
      AfterAfter(e, Continue(ks, env).events);
      Advance(ks, env);
      trace := trace + e;
    }

    /** Resumes the frame on top until the process suspends, a subroutine is
        called, or the frame finishes; `es` is what happened before that. */
    method ResumeTop() returns (ghost es: seq<Event>)
      requires Valid() && !complete && Settled() && !shouldContinue
      modifies this
      ensures Valid() && !(shouldContinue && complete) && (!complete ==> Settled())
      ensures Suspended !in es
      ensures var all := if shouldContinue || complete then es else es + [Suspended];
        trace == old(trace) + all && old(Rest()) == After(all, Rest())
      ensures shouldContinue ==> Size() < old(Size())
    {
      hide Rest, Size;
      ghost var all: seq<Event> := [];
      AfterNothing();
      var running := AwaitResume();
      while running
        invariant Valid() && !(shouldContinue && complete)
        invariant running ==> !complete && !shouldContinue && frames[TopFrame()].awaits.None? && Size() <= old(Size())
        invariant !running && !complete ==> Settled()
        invariant shouldContinue ==> Size() < old(Size())
        invariant trace == old(trace) + all && old(Rest()) == After(all, Rest())
        invariant running || shouldContinue || complete ==> Suspended !in all
        invariant !running && !shouldContinue && !complete ==>
          |all| > 0 && all[|all| - 1] == Suspended && Suspended !in all[..|all| - 1]
        decreases running, if running then Size() else 0
      {
        ghost var e;
        running, e := MicroStep();
        AfterAfter(all, e);
        assert all + e == all || all + e == all + [Suspended] ==> (all + e)[..|all|] == all;
        all := all + e;
      }
      es := if shouldContinue || complete then all else all[..|all| - 1];
    }

    /** Resumes the process: it runs, through any number of calls, returns and
        exceptions, exactly up to its next suspension or to its end. */
    method Resume()
      requires Valid() && !complete && Settled()
      modifies this
      ensures Valid() && (!complete ==> Settled())
      ensures trace == old(trace) + Segment(old(Rest()).events)
      ensures |Segment(old(Rest()).events)| <= |old(Rest()).events|
      ensures Rest() == Run(old(Rest()).events[|Segment(old(Rest()).events)|..], old(Rest()).result)
      ensures complete <==> Suspended !in old(Rest()).events
    {
      hide Rest, Size, Settled;
      ghost var es: seq<Event> := [];
      var again := true;
      AfterNothing();
      while again
        invariant Valid() && (!complete ==> Settled()) && Suspended !in es
        invariant again ==> !complete
        invariant var all := if again || complete then es else es + [Suspended];
          trace == old(trace) + all && old(Rest()) == After(all, Rest())
        decreases again, if again then Size() else 0
      {
        shouldContinue := false;
        ghost var e;
        e := ResumeTop();
        again := shouldContinue;
        AfterAfter(es, if again || complete then e else e + [Suspended]);
        assert es + (e + [Suspended]) == (es + e) + [Suspended];
        es := es + e;
      }
      if complete {
        RestWhenComplete();
      }
      SegmentTaken(old(Rest()), es, Rest(), complete);
    }
  }

  /** A process that is resumed until it completes shows exactly the events of
      the structured program, and ends with its value or exception. */
  method RunToCompletion(body: Stmt, env: Env) returns (ghost events: seq<Event>, result: Result)
    ensures result == CallResult(body, env).result
    ensures events == CallResult(body, env).events
  {
    hide CallResult;
    var p := new CoroutineData(body, env);
    hide CoroutineData.Rest;
    AfterNothing();
    while !p.complete
      invariant p.Valid() && (!p.complete ==> p.Settled())
      invariant CallResult(body, env) == After(p.trace, p.Rest())
      decreases |p.Rest().events|, !p.complete
    {
      ghost var rest, trace := p.Rest(), p.trace;
      p.Resume();
      SegmentIsPrefix(rest.events);
      ghost var seg := Segment(rest.events);
      assert rest.events == seg + rest.events[|seg|..];
      AfterAfter(trace, seg);
      assert rest == After(seg, p.Rest());
    }
    p.RestWhenComplete();
    events, result := p.trace, p.outcome.value;
    assert events + [] == events;
  }
}
