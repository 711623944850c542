/** The synchronisation objects as classes. A coroutine that loops on a condition
    makes one pass of its loop whenever it is resumed: each method below is one
    pass, and `passed` tells whether it left the loop. */
module SyncPrimitives {
  import M = SyncMachine

  /** A waiting process; while it is registered, `time` is its latency. */
  datatype Token = Token(time: int, proc: nat)

  /** The tokens of an event as a wake at `now` schedules them. */
  function Scheduled(tokens: seq<Token>, now: int): (r: seq<Token>)
    ensures |r| == |tokens|
    ensures forall i | 0 <= i < |r| :: r[i] == Token(tokens[i].time + now, tokens[i].proc)
  {
    if tokens == [] then []
    else Scheduled(tokens[..|tokens| - 1], now) + [Token(tokens[|tokens| - 1].time + now, tokens[|tokens| - 1].proc)]
  }

  /** The environment, as far as events use it. */
  class Agenda {
    var now: int
    var queue: seq<Token>

    constructor (now: int)
      ensures this.now == now && queue == []
    {
      this.now, queue := now, [];
    }

    method ScheduleToken(tkn: Token)
      modifies `queue
      ensures queue == old(queue) + [tkn]
    {
      queue := queue + [tkn];
    }
  }

  class Event {
    var tokens: seq<Token>

    constructor ()
      ensures tokens == []
    {
      tokens := [];
    }

    method Wait(latency: nat, proc: nat)
      modifies this
      ensures tokens == old(tokens) + [Token(latency, proc)]
    {
      tokens := tokens + [Token(latency, proc)];
    }

    /** Schedules every waiter, in order of registration, and forgets them all. */
    method Wake(env: Agenda)
      modifies this, env`queue
      ensures tokens == []
      ensures env.queue == old(env.queue) + Scheduled(old(tokens), env.now)
    {
      var i := 0;
      while i < |tokens|
        invariant i <= |tokens| == |old(tokens)|
        invariant tokens[i..] == old(tokens)[i..]
        invariant env.queue == old(env.queue) + Scheduled(old(tokens)[..i], env.now)
      {
        tokens := tokens[i := tokens[i].(time := tokens[i].time + env.now)];
        env.ScheduleToken(tokens[i]);
        assert old(tokens)[..i + 1][..i] == old(tokens)[..i];
        i := i + 1;
      }
      assert old(tokens)[..i] == old(tokens);
      tokens := [];
    }
  }

  /** What a pass of a check-loop does to the waiters: a pass that is refused
      registers the process, and one that is not wakes the others. */
  twostate predicate Passed(event: Event, env: Agenda, proc: nat, passed: bool)
    reads event, env
  {
    && env.now == old(env.now)
    && if passed then event.tokens == [] && env.queue == old(env.queue) + Scheduled(old(event.tokens), env.now)
       else event.tokens == old(event.tokens) + [Token(0, proc)] && env.queue == old(env.queue)
  }

  class Semaphore {
    var value: nat
    const max: nat
    const event: Event

    /** The initial value is not compared with the maximum. */
    constructor (value: nat, max: nat)
      ensures fresh(event) && event.tokens == []
      ensures Value() == M.Semaphore(value, max)
    {
      this.value, this.max := value, max;
      event := new Event();
    }

    function Value(): M.Obj
      reads this
    {
      M.Semaphore(value, max)
    }

    method Up(env: Agenda, proc: nat) returns (passed: bool)
      modifies `value, event, env`queue
      ensures passed == old(M.Guard(Value(), M.Up(0)))
      ensures Value() == old(if passed then M.Change(Value(), M.Up(0)) else Value())
      ensures Passed(event, env, proc, passed)
    {
      passed := value < max;
      if passed {
        value := value + 1;
        event.Wake(env);
      } else {
        event.Wait(0, proc);
      }
    }

    method Down(env: Agenda, proc: nat) returns (passed: bool)
      modifies `value, event, env`queue
      ensures passed == old(M.Guard(Value(), M.Down(0)))
      ensures Value() == old(if passed then M.Change(Value(), M.Down(0)) else Value())
      ensures Passed(event, env, proc, passed)
    {
      passed := value > 0;
      if passed {
        value := value - 1;
        event.Wake(env);
      } else {
        event.Wait(0, proc);
      }
    }
  }

  class Queue {
    var q: seq<int>
    const maxSize: nat
    const event: Event

    constructor (maxSize: nat)
      ensures fresh(event) && event.tokens == []
      ensures Value() == M.Queue([], maxSize)
    {
      this.maxSize, q := maxSize, [];
      event := new Event();
    }

    function Value(): M.Obj
      reads this
    {
      M.Queue(q, maxSize)
    }

    predicate CanPut()
      reads this
    {
      maxSize == 0 || maxSize > |q|
    }

    predicate CanPop()
      reads this
    {
      |q| > 0
    }

    method Put(env: Agenda, proc: nat, v: int) returns (passed: bool)
      modifies `q, event, env`queue
      ensures passed == old(M.Guard(Value(), M.Put(0, v)))
      ensures Value() == old(if passed then M.Change(Value(), M.Put(0, v)) else Value())
      ensures Passed(event, env, proc, passed)
    {
      passed := CanPut();
      if passed {
        q := q + [v];
        event.Wake(env);
      } else {
        event.Wait(0, proc);
      }
    }

    /** `v` is the item when the pass succeeds. */
    method Pop(env: Agenda, proc: nat) returns (passed: bool, v: int)
      modifies `q, event, env`queue
      ensures passed == old(M.Guard(Value(), M.Take(0)))
      ensures Value() == old(if passed then M.Change(Value(), M.Take(0)) else Value())
      ensures passed ==> old(q) == [v] + q
      ensures Passed(event, env, proc, passed)
    {
      v := 0;
      passed := CanPop();
      if passed {
        v := q[0];
        q := q[1..];
        event.Wake(env);
      } else {
        event.Wait(0, proc);
      }
    }
  }

  class Mutex {
    var owned: bool
    const event: Event

    constructor ()
      ensures fresh(event) && event.tokens == []
      ensures Value() == M.Mutex(false)
    {
      owned := false;
      event := new Event();
    }

    function Value(): M.Obj
      reads this
    {
      M.Mutex(owned)
    }

    /** Taking the mutex wakes nobody; the handle is new and valid. */
    method Acquire(env: Agenda, proc: nat) returns (passed: bool, handle: MutexHandle?)
      modifies `owned, event
      ensures passed == old(M.Guard(Value(), M.Lock(0, 0)))
      ensures Value() == old(if passed then M.Change(Value(), M.Lock(0, 0)) else Value())
      ensures event.tokens == if passed then old(event.tokens) else old(event.tokens) + [Token(0, proc)]
      ensures passed <==> handle != null
      ensures handle != null ==> fresh(handle) && handle.x == this
    {
      passed, handle := !owned, null;
      if passed {
        owned := true;
        handle := new MutexHandle(this);
      } else {
        event.Wait(0, proc);
      }
    }
  }

  class MutexHandle {
    var x: Mutex?

    constructor (x: Mutex?)
      ensures this.x == x
    {
      this.x := x;
    }

    /** Move assignment swaps. */
    method MoveFrom(other: MutexHandle)
      modifies this, other
      ensures x == old(other.x) && other.x == old(x)
    {
      x, other.x := other.x, x;
    }

    /** Throws if the handle is not valid, and then changes nothing. */
    method Release(env: Agenda) returns (thrown: bool)
      modifies this, x, if x == null then {} else {x.event}, env`queue
      ensures thrown == (old(x) == null)
      ensures x == null
      ensures thrown ==> env.queue == old(env.queue)
      ensures !thrown ==> !old(x).owned && old(x).event == old(x.event) && old(x).event.tokens == []
      ensures !thrown ==> env.queue == old(env.queue) + Scheduled(old(x.event.tokens), env.now)
    {
      thrown := x == null;
      if !thrown {
        var m := x;
        x := null;
        m.owned := false;
        m.event.Wake(env);
      }
    }
  }

  class Resource {
    const s: Semaphore
    const event: Event

    constructor (count: nat)
      ensures fresh(s) && fresh(event) && s.event == event && event.tokens == []
      ensures Valid() && Value() == M.Resource(count, count)
    {
      var sem := new Semaphore(count, count);
      s, event := sem, sem.event;
    }

    predicate Valid()
      reads this
    {
      event == s.event
    }

    function Value(): M.Obj
      reads this, s
    {
      M.Resource(s.value, s.max)
    }

    method Acquire(env: Agenda, proc: nat) returns (passed: bool, handle: ResourceHandle?)
      requires Valid()
      modifies s`value, event, env`queue
      ensures passed == old(M.Guard(Value(), M.Acquire(0, 0)))
      ensures Value() == old(if passed then M.Change(Value(), M.Acquire(0, 0)) else Value())
      ensures Passed(event, env, proc, passed)
      ensures passed <==> handle != null
      ensures handle != null ==> fresh(handle) && handle.x == this
    {
      handle := null;
      passed := s.Down(env, proc);
      if passed {
        handle := new ResourceHandle(this);
      }
    }
  }

  class ResourceHandle {
    var x: Resource?

    constructor (x: Resource?)
      ensures this.x == x
    {
      this.x := x;
    }

    method MoveFrom(other: ResourceHandle)
      modifies this, other
      ensures x == old(other.x) && other.x == old(x)
    {
      x, other.x := other.x, x;
    }

    /** The first pass of a release: the handle is cleared even if giving the unit
        back had to wait. */
    method Release(env: Agenda, proc: nat) returns (thrown: bool, passed: bool)
      requires x != null ==> x.Valid()
      modifies this, if x == null then {} else {x.s, x.event}, env`queue
      ensures thrown == (old(x) == null) && x == null
      ensures thrown ==> !passed && env.queue == old(env.queue)
      ensures !thrown ==> passed == old(M.Guard(x.Value(), M.ReleaseUp(0)))
      ensures !thrown ==> old(x).Value() == old(if passed then M.Change(x.Value(), M.ReleaseUp(0)) else x.Value())
      ensures !thrown ==> Passed(old(x).event, env, proc, passed)
    {
      thrown, passed := x == null, false;
      if !thrown {
        var r := x;
        x := null;
        passed := r.s.Up(env, proc);
      }
    }
  }
}
