/** The objects behind a shared coroutine: tokens that several owners point to, the
    coroutine's data, and the environment that manages it. */
module CompletionObjects {
  import opened Options
  import opened Priorities
  import M = SharedCompletion

  class Token {
    var time: int
    var priority: int
    var error: Option<int>

    constructor (time: int, priority: int)
      ensures this.time == time && this.priority == priority && error == None
    {
      this.time, this.priority, error := time, priority, None;
    }
  }

  class Environment {
    var now: int
    var queue: seq<Token>
    var coroutines: set<CoroutineData>

    constructor ()
      ensures now == 0 && queue == [] && coroutines == {}
    {
      now, queue, coroutines := 0, [], {};
    }

    method ScheduleToken(tkn: Token)
      modifies `queue
      ensures queue == old(queue) + [tkn]
    {
      queue := queue + [tkn];
    }

    /** Destroys every managed coroutine that is not complete; the set is emptied
        before, since a coroutine may remove itself from it. */
    method Reset()
      modifies this, coroutines
      ensures coroutines == {} && queue == [] && now == 0
      ensures forall c | c in old(coroutines) ::
        c.complete && c.destroyed == old(c.destroyed) + if old(c.complete) then 0 else 1
      ensures forall c | c in old(coroutines) ::
        c.completionTokens == old(c.completionTokens) && c.value == old(c.value)
    {
      var moved := coroutines;
      coroutines := {};
      var left := moved;
      while left != {}
        invariant left <= moved == old(coroutines)
        invariant coroutines == {}
        invariant forall c | c in left :: c.complete == old(c.complete) && c.destroyed == old(c.destroyed)
        invariant forall c | c in moved - left ::
          c.complete && c.destroyed == old(c.destroyed) + if old(c.complete) then 0 else 1
        invariant forall c | c in moved :: c.completionTokens == old(c.completionTokens) && c.value == old(c.value)
        decreases |left|
      {
        var c :| c in left;
        if !c.complete {
          c.Destroy();
        }
        left := left - {c};
      }
      while queue != []
        invariant coroutines == {}
        invariant forall c | c in moved ::
          c.complete && c.destroyed == old(c.destroyed) + if old(c.complete) then 0 else 1
        invariant forall c | c in moved :: c.completionTokens == old(c.completionTokens) && c.value == old(c.value)
        decreases |queue|
      {
        queue := queue[1..];
      }
      now := 0;
    }
  }

  class CoroutineData {
    var env: Environment?
    var priority: int
    const latency: nat
    var complete: bool
    var destroyed: nat
    var value: Option<int>
    var completionTokens: seq<Token>

    constructor (latency: nat, priority: int)
      ensures env == null && !complete && destroyed == 0 && value == None && completionTokens == []
      ensures this.latency == latency && this.priority == priority
    {
      this.latency, this.priority := latency, priority;
      env, complete, destroyed, value, completionTokens := null, false, 0, None, [];
    }

    ghost predicate Distinct()
      reads this
    {
      forall i, j | 0 <= i < j < |completionTokens| :: completionTokens[i] != completionTokens[j]
    }

    /** Starts the coroutine in `e`; binding it again changes nothing, and throws if
        that is another environment. */
    method Bind(e: Environment, inherited: int) returns (thrown: bool)
      modifies `env, `priority, e`queue, e`coroutines
      ensures thrown == (old(env) != null && old(env) != e)
      ensures old(env) != null ==>
        env == old(env) && priority == old(priority) && e.queue == old(e.queue) && e.coroutines == old(e.coroutines)
      ensures old(env) == null ==>
        && env == e && priority == (if old(priority) == INHERIT then inherited else old(priority))
        && |e.queue| == |old(e.queue)| + 1 && e.queue[..|old(e.queue)|] == old(e.queue)
        && fresh(e.queue[|old(e.queue)|]) && e.queue[|old(e.queue)|].time == e.now + latency
        && e.queue[|old(e.queue)|].priority == priority && e.coroutines == old(e.coroutines) + {this}
    {
      thrown := false;
      if env != null {
        thrown := env != e;
        return;
      }
      env := e;
      if priority == INHERIT {
        priority := inherited;
      }
      var start := new Token(e.now + latency, priority);
      e.ScheduleToken(start);
      e.coroutines := e.coroutines + {this};
    }

    method CompletionToken(tkn: Token)
      requires Distinct() && tkn !in completionTokens
      modifies `completionTokens
      ensures Distinct() && completionTokens == old(completionTokens) + [tkn]
    {
      completionTokens := completionTokens + [tkn];
    }

    method PropagateException(e: int)
      modifies completionTokens`error
      ensures forall t | t in completionTokens :: t.error == Some(e)
    {
      var i := 0;
      while i < |completionTokens|
        invariant i <= |completionTokens|
        invariant forall j | 0 <= j < i :: completionTokens[j].error == Some(e)
      {
        completionTokens[i].error := Some(e);
        i := i + 1;
      }
    }

    /** Every completion token becomes due its own latency from now, and is queued. */
    method ScheduleCompletion(e: Environment)
      requires Distinct()
      modifies `completionTokens, e`queue, completionTokens`time
      ensures completionTokens == [] && e.queue == old(e.queue) + old(completionTokens)
      ensures forall t | t in old(completionTokens) :: t.time == old(t.time) + e.now
    {
      var i := 0;
      while i < |completionTokens|
        invariant i <= |completionTokens| && completionTokens == old(completionTokens)
        invariant e.queue == old(e.queue) + completionTokens[..i]
        invariant forall j | 0 <= j < i :: completionTokens[j].time == old(completionTokens[j].time) + e.now
        invariant forall j | i <= j < |completionTokens| :: completionTokens[j].time == old(completionTokens[j].time)
      {
        completionTokens[i].time := completionTokens[i].time + e.now;
        e.ScheduleToken(completionTokens[i]);
        i := i + 1;
      }
      completionTokens := [];
    }

    method DoReturn(e: Environment)
      requires env == e && Distinct()
      modifies `completionTokens, `complete, e`queue, e`coroutines, completionTokens`time
      ensures complete && completionTokens == [] && e.queue == old(e.queue) + old(completionTokens)
      ensures e.coroutines == old(e.coroutines) - {this}
      ensures forall t | t in old(completionTokens) :: t.time == old(t.time) + e.now
    {
      ScheduleCompletion(e);
      complete := true;
      e.coroutines := e.coroutines - {this};
    }

    /** `co_return v`. */
    method ReturnValue(e: Environment, v: int)
      requires env == e && Distinct()
      modifies `value, `completionTokens, `complete, e`queue, e`coroutines, completionTokens`time
      ensures value == Some(v) && complete && completionTokens == []
      ensures e.queue == old(e.queue) + old(completionTokens) && e.coroutines == old(e.coroutines) - {this}
      ensures forall t | t in old(completionTokens) :: t.time == old(t.time) + e.now && t.error == old(t.error)
    {
      value := Some(v);
      DoReturn(e);
    }

    /** An exception leaves the body. */
    method UnhandledException(e: Environment, x: int)
      requires env == e && Distinct()
      modifies `completionTokens, `complete, e`queue, e`coroutines
      modifies completionTokens`time
      modifies completionTokens`error
      ensures value == old(value) && complete && completionTokens == []
      ensures e.queue == old(e.queue) + old(completionTokens) && e.coroutines == old(e.coroutines) - {this}
      ensures forall t | t in old(completionTokens) :: t.time == old(t.time) + e.now && t.error == Some(x)
    {
      PropagateException(x);
      DoReturn(e);
    }

    method Destroy()
      modifies `complete, `destroyed
      ensures complete && destroyed == old(destroyed) + 1
    {
      complete, destroyed := true, destroyed + 1;
    }
  }

  /** A copy of the coroutine object. */
  class Coroutine {
    const data: CoroutineData
    var completionToken: Token?
    const returnLatency: nat
    const returnPriority: int

    constructor (data: CoroutineData, latency: nat, priority: int)
      ensures this.data == data && completionToken == null && returnLatency == latency && returnPriority == priority
    {
      this.data, completionToken, returnLatency, returnPriority := data, null, latency, priority;
    }

    predicate AwaitReady()
      reads this, data
    {
      data.complete
    }

    /** Throws if an await through this object is under way. */
    method AwaitSuspend() returns (thrown: bool)
      requires data.Distinct()
      modifies `completionToken, data`completionTokens
      ensures thrown == (old(completionToken) != null) && data.Distinct()
      ensures thrown ==> completionToken == old(completionToken) && data.completionTokens == old(data.completionTokens)
      ensures !thrown ==>
        && completionToken != null && fresh(completionToken)
        && data.completionTokens == old(data.completionTokens) + [completionToken]
        && completionToken.time == returnLatency && completionToken.error == None
        && completionToken.priority == if returnPriority == INHERIT then data.priority else returnPriority
    {
      thrown := completionToken != null;
      if !thrown {
        var tkn := new Token(returnLatency, returnPriority);
        if tkn.priority == INHERIT {
          tkn.priority := data.priority;
        }
        completionToken := tkn;
        data.CompletionToken(tkn);
      }
    }

    /** `await_resume` without a value: the token is given up, complete or not, and its
        exception rethrown. */
    method Visit() returns (error: Option<int>)
      modifies `completionToken
      ensures completionToken == null
      ensures error == if old(completionToken) == null then None else old(completionToken.error)
    {
      error := None;
      if completionToken != null {
        error := completionToken.error;
        completionToken := null;
      }
    }

    /** The answer is that of the state machine for the same coroutine and error. */
    method AwaitResume(isVoid: bool) returns (a: M.Answer)
      modifies `completionToken
      ensures completionToken == null
      ensures a == M.Resumes(M.Coro(isVoid, data.latency, data.priority, data.env != null, 0, data.complete,
                                    data.value, []),
                             if old(completionToken) == null then None else old(completionToken.error))
    {
      var error := Visit();
      if error.Some? {
        return M.Rethrown(error.value);
      }
      if isVoid {
        return M.Done;
      }
      if data.value.None? {
        return M.NoReturnValue;
      }
      return M.Value(data.value.value);
    }

    /** `async`: the coroutine is bound, a token is made unless it is complete, and given
        up at once, so that the object can be awaited again. It throws if the coroutine is
        bound elsewhere or the object already awaited, and rethrows what the token of a
        complete coroutine carries. */
    method Async(e: Environment, priority: int) returns (thrown: bool, error: Option<int>)
      requires data.Distinct()
      modifies `completionToken, data`env, data`priority, data`completionTokens, e`queue, e`coroutines
      ensures data.Distinct()
      ensures thrown <==>
        (old(data.env) != null && old(data.env) != e) || (!data.complete && old(completionToken) != null)
      ensures thrown ==> completionToken == old(completionToken) && data.completionTokens == old(data.completionTokens)
      ensures old(data.env) == null ==>
        && data.env == e && data.priority == (if old(data.priority) == INHERIT then priority else old(data.priority))
        && |e.queue| == |old(e.queue)| + 1 && e.queue[..|old(e.queue)|] == old(e.queue)
        && e.queue[|old(e.queue)|].time == e.now + data.latency && e.queue[|old(e.queue)|].priority == data.priority
        && e.coroutines == old(e.coroutines) + {data}
      ensures old(data.env) != null ==>
        && data.env == old(data.env) && data.priority == old(data.priority)
        && e.queue == old(e.queue) && e.coroutines == old(e.coroutines)
      ensures !thrown ==> completionToken == null
      ensures !thrown && data.complete ==>
        && data.completionTokens == old(data.completionTokens)
        && error == if old(completionToken) == null then None else old(completionToken.error)
      ensures !thrown && !data.complete ==>
        && error.None? && |data.completionTokens| == |old(data.completionTokens)| + 1
        && data.completionTokens[..|old(data.completionTokens)|] == old(data.completionTokens)
        && var made := data.completionTokens[|old(data.completionTokens)|];
        && fresh(made) && made.time == returnLatency && made.error == None
        && made.priority == if returnPriority == INHERIT then data.priority else returnPriority
    {
      error := None;
      thrown := data.Bind(e, priority);
      if thrown {
        return;
      }
      if !AwaitReady() {
        thrown := AwaitSuspend();
        if thrown {
          return;
        }
      }
      error := Visit();
    }
  }
}
