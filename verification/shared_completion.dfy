/** A coroutine that any number of processes await, directly, in compositions or by
    `async`, through any number of handles: binding, completion tokens, return values and
    exceptions, and `reset`. Coroutines, handles and tokens are named by their index. */
module SharedCompletion {
  import opened Options
  import opened Priorities

  /** How a body ends; a `void` coroutine returns no value. */
  datatype Outcome = Returned(v: Option<int>) | Threw(e: int)

  /** What an awaiting process gets. */
  datatype Answer = Done | Value(v: int) | Rethrown(e: int) | NoReturnValue

  /** What comes of a token that is popped: the process that it resumes gets an answer,
      which depends on the token `used` that the handle then holds; the token of a
      composition goes to its handler, and that of `async` to nobody. */
  datatype Reply = Answered(at: int, a: Answer, used: Option<nat>) | Handed(at: int)

  /** `startAt` is the time of the start token. */
  datatype Coro = Coro(isVoid: bool, latency: nat, priority: int, bound: bool, startAt: int, complete: bool,
                       value: Option<int>, completions: seq<nat>)

  /** A `coroutine` object: its own return latency and priority, and the token of an
      await that is under way. */
  datatype Handle = Handle(coro: nat, latency: nat, priority: int, token: Option<nat>)

  /** A `joint` token does not resume a process itself. */
  datatype Token = Token(handle: nat, time: int, priority: int, error: Option<int>, joint: bool)

  datatype Entry = Start(c: nat) | Wake(t: nat)

  /** What has happened: how often each body was started and each coroutine was
      destroyed, when and how it ended, and what came of each token. A token that an
      `await_resume` other than its own has cleared from its handle is `abandoned` if that
      was before its coroutine was complete, and else `taken`, with the exception that
      came with it. `dropped` are those that a reset has removed from the queue. */
  datatype History = History(starts: seq<nat>, destroyed: seq<nat>, ended: seq<Option<(int, Outcome)>>,
                             replies: seq<Option<Reply>>, abandoned: set<nat>, taken: map<nat, Option<int>>,
                             dropped: set<nat>)

  datatype State = State(now: int, coros: seq<Coro>, handles: seq<Handle>, tokens: seq<Token>,
                         queue: multiset<Entry>, managed: set<nat>, hist: History)

  const Empty := State(0, [], [], [], multiset{}, {}, History([], [], [], [], {}, map[], {}))

  // ----- well-formed references -----

  ghost predicate WF(s: State) {
    && |s.hist.starts| == |s.hist.destroyed| == |s.hist.ended| == |s.coros|
    && |s.hist.replies| == |s.tokens|
    && (forall h | 0 <= h < |s.handles| :: HandleWF(s, s.handles[h]))
    && (forall t | 0 <= t < |s.tokens| :: s.tokens[t].handle < |s.handles|)
    && (forall c | 0 <= c < |s.coros| :: Below(s.coros[c].completions, |s.tokens|))
    && (forall e | e in s.queue :: EntryWF(s, e))
  }

  predicate HandleWF(s: State, x: Handle) {
    x.coro < |s.coros| && (x.token.Some? ==> x.token.value < |s.tokens|)
  }

  predicate Below(ts: seq<nat>, n: nat) {
    forall i | 0 <= i < |ts| :: ts[i] < n
  }

  predicate EntryWF(s: State, e: Entry) {
    match e
    case Start(c) => c < |s.coros|
    case Wake(t) => t < |s.tokens|
  }

  function CoroOf(s: State, t: nat): (c: nat)
    requires WF(s) && t < |s.tokens|
    ensures c < |s.coros|
  {
    assert HandleWF(s, s.handles[s.tokens[t].handle]);
    s.handles[s.tokens[t].handle].coro
  }

  // ----- the operations -----

  function Create(s: State, isVoid: bool, latency: nat, priority: int): State {
    s.(coros := s.coros + [Coro(isVoid, latency, priority, false, 0, false, None, [])],
       hist := s.hist.(starts := s.hist.starts + [0], destroyed := s.hist.destroyed + [0],
                       ended := s.hist.ended + [None]))
  }

  /** A copy of the coroutine object. */
  function Share(s: State, c: nat, latency: nat, priority: int): State
    requires c < |s.coros|
  {
    s.(handles := s.handles + [Handle(c, latency, priority, None)])
  }

  /** Binding starts the coroutine, unless that has been done before. */
  function Bind(s: State, c: nat, priority: int): State
    requires c < |s.coros|
  {
    var x := s.coros[c];
    if x.bound then s
    else
      var prio := if x.priority == INHERIT then priority else x.priority;
      s.(coros := s.coros[c := x.(bound := true, priority := prio, startAt := s.now + x.latency)],
         queue := s.queue + multiset{Start(c)},
         managed := s.managed + {c})
  }

  /** What `await_resume` gives, `error` being that of the completion token, if any. */
  function Resumes(x: Coro, error: Option<int>): Answer {
    if error.Some? then Rethrown(error.value)
    else if x.isVoid then Done
    else if x.value.Some? then Value(x.value.value)
    else NoReturnValue
  }

  /** `await_resume` through handle `h`, which uses the token that the handle holds. */
  function Answers(s: State, h: nat): Answer
    requires WF(s) && h < |s.handles|
  {
    assert HandleWF(s, s.handles[h]);
    var k := s.handles[h].token;
    Resumes(s.coros[s.handles[h].coro], if k.Some? then s.tokens[k.value].error else None)
  }

  function ClearToken(s: State, h: nat): State
    requires h < |s.handles|
  {
    s.(handles := s.handles[h := s.handles[h].(token := None)])
  }

  datatype Awaited = Now(a: Answer) | Suspended(t: nat) | AlreadyAwaited

  /** An `await_resume` through handle `h` that is not that of token `own`: the handle gives
      up the token it holds. */
  function Free(s: State, h: nat, own: Option<nat>): State
    requires WF(s) && h < |s.handles|
  {
    assert HandleWF(s, s.handles[h]);
    var k, s1 := s.handles[h].token, ClearToken(s, h);
    if k.None? || k == own then s1
    else if s.coros[s.handles[h].coro].complete then
      s1.(hist := s.hist.(taken := s.hist.taken[k.value := s.tokens[k.value].error]))
    else s1.(hist := s.hist.(abandoned := s.hist.abandoned + {k.value}))
  }

  lemma BindWF(s: State, c: nat, priority: int)
    requires WF(s) && c < |s.coros|
    ensures WF(Bind(s, c, priority)) && Bind(s, c, priority).handles == s.handles
  {
    var r := Bind(s, c, priority);
    forall h | 0 <= h < |r.handles| ensures HandleWF(r, r.handles[h]) { assert HandleWF(s, s.handles[h]); }
    forall d | 0 <= d < |r.coros| ensures Below(r.coros[d].completions, |r.tokens|) {
      assert Below(s.coros[d].completions, |s.tokens|);
    }
    forall e | e in r.queue ensures EntryWF(r, e) { assert e in s.queue ==> EntryWF(s, e); }
  }

  /** A process awaits through handle `h`: bind, then ready, then suspend. */
  function Await(s: State, h: nat, priority: int): (r: (State, Awaited))
    requires WF(s) && h < |s.handles|
  {
    assert HandleWF(s, s.handles[h]);
    var c := s.handles[h].coro;
    BindWF(s, c, priority);
    var s1 := Bind(s, c, priority);
    if s1.coros[c].complete then (Free(s1, h, None), Now(Answers(s1, h)))
    else if s1.handles[h].token.Some? then (s1, AlreadyAwaited)
    else (Register(s1, h, false), Suspended(|s1.tokens|))
  }

  /** A composition suspends on handle `h`, or `async` does. */
  function Join(s: State, h: nat, priority: int): State
    requires WF(s) && h < |s.handles|
  {
    assert HandleWF(s, s.handles[h]);
    var c := s.handles[h].coro;
    var s1 := Bind(s, c, priority);
    if s1.coros[c].complete || s1.handles[h].token.Some? then s1 else Register(s1, h, true)
  }

  function Register(s: State, h: nat, joint: bool): State
    requires h < |s.handles| && s.handles[h].coro < |s.coros|
  {
    var c, t := s.handles[h].coro, |s.tokens|;
    var prio := if s.handles[h].priority == INHERIT then s.coros[c].priority else s.handles[h].priority;
    s.(tokens := s.tokens + [Token(h, s.handles[h].latency, prio, None, joint)],
       handles := s.handles[h := s.handles[h].(token := Some(t))],
       coros := s.coros[c := s.coros[c].(completions := s.coros[c].completions + [t])],
       hist := s.hist.(replies := s.hist.replies + [None]))
  }

  /** The completion tokens get the exception, then the current time, and are queued. */
  function Complete(tokens: seq<Token>, list: seq<nat>, now: int, error: Option<int>): seq<Token>
    requires Below(list, |tokens|)
    decreases |list|
  {
    if list == [] then tokens
    else Complete(tokens[list[0] := Due(tokens[list[0]], now, error)], list[1..], now, error)
  }

  function Due(k: Token, now: int, error: Option<int>): Token {
    k.(time := k.time + now, error := if error.Some? then error else k.error)
  }

  function Wakes(list: seq<nat>): multiset<Entry> {
    if list == [] then multiset{} else multiset{Wake(list[0])} + Wakes(list[1..])
  }

  /** The body of `c` returns or throws. */
  function End(s: State, c: nat, outcome: Outcome): State
    requires WF(s) && c < |s.coros|
  {
    var x := s.coros[c];
    s.(tokens := Complete(s.tokens, x.completions, s.now, if outcome.Threw? then Some(outcome.e) else None),
       queue := s.queue + Wakes(x.completions),
       coros := s.coros[c := x.(completions := [], complete := true,
                                value := if outcome.Returned? then outcome.v else x.value)],
       managed := s.managed - {c},
       hist := s.hist.(ended := s.hist.ended[c := Some((s.now, outcome))]))
  }

  function TimeOf(s: State, e: Entry): int
    requires WF(s) && EntryWF(s, e)
  {
    match e
    case Start(c) => s.coros[c].startAt
    case Wake(t) => s.tokens[t].time
  }

  ghost predicate IsNext(s: State, e: Entry)
    requires WF(s)
  {
    e in s.queue && EntryWF(s, e) && forall q | q in s.queue :: EntryWF(s, q) && TimeOf(s, e) <= TimeOf(s, q)
  }

  lemma FreeWF(s: State, h: nat, own: Option<nat>)
    requires WF(s) && h < |s.handles|
    ensures WF(Free(s, h, own))
  {
    var r := Free(s, h, own);
    forall d | 0 <= d < |r.handles| ensures HandleWF(r, r.handles[d]) { assert HandleWF(s, s.handles[d]); }
    forall e | e in r.queue ensures EntryWF(r, e) { assert EntryWF(s, e); }
  }

  /** One entry is popped: a body starts, or a process resumes with its answer, or a
      handler gets the token. */
  function Pop(s: State, e: Entry): State
    requires WF(s) && EntryWF(s, e)
  {
    var time := TimeOf(s, e);
    var now := if time > s.now then time else s.now;
    match e
    case Start(c) => s.(now := now, queue := s.queue - multiset{e},
                        hist := s.hist.(starts := s.hist.starts[c := s.hist.starts[c] + 1]))
    case Wake(t) =>
      var h := s.tokens[t].handle;
      var reply := if s.tokens[t].joint then Handed(now) else Answered(now, Answers(s, h), s.handles[h].token);
      var s1 := if s.tokens[t].joint then s else Free(s, h, Some(t));
      s1.(now := now, queue := s.queue - multiset{e}, hist := s1.hist.(replies := s.hist.replies[t := Some(reply)]))
  }

  /** Every managed coroutine that is not complete is destroyed, the queue is
      cleared, and the clock goes back to zero. */
  ghost function Reset(s: State): State
    requires WF(s)
  {
    var n := |s.coros|;
    s.(now := 0, queue := multiset{}, managed := {},
       coros := seq(n, c requires 0 <= c < n => if c in s.managed then s.coros[c].(complete := true) else s.coros[c]),
       hist := s.hist.(
         destroyed := seq(n, c requires 0 <= c < n =>
           if c in s.managed && !s.coros[c].complete then s.hist.destroyed[c] + 1 else s.hist.destroyed[c]),
         dropped := s.hist.dropped + set t: nat | t < |s.tokens| && Wake(t) in s.queue))
  }

  // ----- runs -----

  datatype Action =
    | Creates(isVoid: bool, latency: nat, priority: int)
    | Shares(c: nat, latency: nat, priority: int)
    | Binds(c: nat, priority: int)
    | Awaits(h: nat, priority: int)
    | Joins(h: nat, priority: int)
    | Visits(h: nat)
    | Pops(e: Entry)
    | Ends(c: nat, outcome: Outcome)
    | Resets

  /** A composition whose process goes on visits its handles, at any time, and `async`
      visits its own at once. A body can end once it has started and as long as it has not
      ended or been destroyed, with a value unless the coroutine is `void`. */
  ghost predicate Enabled(s: State, a: Action) {
    && WF(s)
    && match a
       case Creates(_, _, _) => true
       case Shares(c, _, _) => c < |s.coros|
       case Binds(c, _) => c < |s.coros|
       case Awaits(h, _) => h < |s.handles|
       case Joins(h, _) => h < |s.handles|
       case Visits(h) => h < |s.handles|
       case Pops(e) => IsNext(s, e)
       case Ends(c, outcome) =>
         && c < |s.coros| && s.hist.starts[c] > 0 && !s.coros[c].complete
         && (outcome.Returned? ==> (outcome.v.None? <==> s.coros[c].isVoid))
       case Resets => true
  }

  ghost function Do(s: State, a: Action): State
    requires Enabled(s, a)
  {
    match a
    case Creates(v, latency, priority) => Create(s, v, latency, priority)
    case Shares(c, latency, priority) => Share(s, c, latency, priority)
    case Binds(c, priority) => Bind(s, c, priority)
    case Awaits(h, priority) => Await(s, h, priority).0
    case Joins(h, priority) => Join(s, h, priority)
    case Visits(h) => Free(s, h, None)
    case Pops(e) => Pop(s, e)
    case Ends(c, outcome) => End(s, c, outcome)
    case Resets => Reset(s)
  }

  ghost predicate Runs(s: State, acts: seq<Action>, s': State)
    decreases |acts|
  {
    if acts == [] then s' == s else Enabled(s, acts[0]) && Runs(Do(s, acts[0]), acts[1..], s')
  }

  ghost predicate Reachable(s: State) {
    exists acts :: Runs(Empty, acts, s)
  }
}
