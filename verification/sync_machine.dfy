/** Processes that use events, semaphores, mutexes, resources and queues. One
    process runs at a time, until it suspends: the segment between two
    suspensions is atomic. A suspended process has exactly one token, so a queued
    or registered token is represented by the status of its process. Among the
    earliest tokens any may go first, whatever the priorities. */
module SyncMachine {
  import opened Options

  datatype Obj =
    | Event
    | Semaphore(value: nat, max: nat)
    | Mutex(owned: bool)
    | Resource(free: nat, count: nat)
    | Queue(items: seq<int>, maxSize: nat)

  /** What a process body does; `cell` names a handle variable. `ReleaseUp` is
      the second half of releasing a resource, and not written by users. */
  datatype Op =
    | Delay(d: nat)
    | Wait(o: nat, latency: nat)
    | Wake(o: nat)
    | Up(o: nat)
    | Down(o: nat)
    | Lock(o: nat, cell: nat)
    | Acquire(o: nat, cell: nat)
    | Release(cell: nat)
    | ReleaseUp(o: nat)
    | Move(cell: nat, to: nat)
    | Drop(cell: nat)
    | Put(o: nat, v: int)
    | Take(o: nat)

  /** Where a queued token comes from: a delay, or the event of `o`, with which it
      was registered after `since` wakes of that event. */
  datatype Origin = Timer | Woken(o: nat, latency: nat, since: nat)

  datatype Status =
    | Queued(time: int, origin: Origin)
    | Running
    | Blocked(o: nat, latency: nat, since: nat)
    | Ended
    | Failed

  datatype Proc = Proc(prog: seq<Op>, status: Status)

  /** What has happened to one object so far; `wakes` are the times of the wakes
      of its event, `dropped` the handles destroyed without release. */
  datatype History = History(initial: nat, ups: nat, downs: nat, inserted: seq<int>, removed: seq<int>,
                             dropped: nat, wakes: seq<int>, registered: nat, scheduled: nat)

  datatype State = State(now: int, running: Option<nat>, objs: seq<Obj>, cells: seq<Option<nat>>,
                         procs: seq<Proc>, hist: seq<History>)

  // ----- the guarded operations -----

  /** Operations of the form: wait until the guard holds, then change the object. */
  predicate Guarded(op: Op) {
    op.Up? || op.Down? || op.Lock? || op.Acquire? || op.ReleaseUp? || op.Put? || op.Take?
  }

  predicate Fits(b: Obj, op: Op) {
    match op
    case Up(_) => b.Semaphore?
    case Down(_) => b.Semaphore?
    case Lock(_, _) => b.Mutex?
    case Acquire(_, _) => b.Resource?
    case ReleaseUp(_) => b.Resource?
    case Put(_, _) => b.Queue?
    case Take(_) => b.Queue?
    case Wait(_, _) => b.Event?
    case Wake(_) => b.Event?
    case _ => true
  }

  predicate Guard(b: Obj, op: Op)
    requires Guarded(op) && Fits(b, op)
  {
    match op
    case Up(_) => b.value < b.max
    case Down(_) => b.value > 0
    case Lock(_, _) => !b.owned
    case Acquire(_, _) => b.free > 0
    case ReleaseUp(_) => b.free < b.count
    case Put(_, _) => b.maxSize == 0 || |b.items| < b.maxSize
    case Take(_) => |b.items| > 0
  }

  function Change(b: Obj, op: Op): Obj
    requires Guarded(op) && Fits(b, op) && Guard(b, op)
  {
    match op
    case Up(_) => Semaphore(b.value + 1, b.max)
    case Down(_) => Semaphore(b.value - 1, b.max)
    case Lock(_, _) => Mutex(true)
    case Acquire(_, _) => Resource(b.free - 1, b.count)
    case ReleaseUp(_) => Resource(b.free + 1, b.count)
    case Put(_, v) => Queue(b.items + [v], b.maxSize)
    case Take(_) => Queue(b.items[1..], b.maxSize)
  }

  /** The history after `op` has changed `b`. */
  function Note(h: History, b: Obj, op: Op): History
    requires Guarded(op) && Fits(b, op) && Guard(b, op)
  {
    match op
    case Up(_) => h.(ups := h.ups + 1)
    case Down(_) => h.(downs := h.downs + 1)
    case Put(_, v) => h.(inserted := h.inserted + [v])
    case Take(_) => h.(removed := h.removed + [b.items[0]])
    case _ => h
  }

  // ----- typing, as the compiler checks it -----

  predicate Typed(objs: seq<Obj>, cells: nat, op: Op) {
    match op
    case Delay(_) => true
    case Release(c) => c < cells
    case Move(c, t) => c < cells && t < cells
    case Drop(c) => c < cells
    case Lock(o, c) => o < |objs| && Fits(objs[o], op) && c < cells
    case Acquire(o, c) => o < |objs| && Fits(objs[o], op) && c < cells
    case _ => op.o < |objs| && Fits(objs[op.o], op)
  }

  predicate ProgOk(objs: seq<Obj>, cells: nat, prog: seq<Op>) {
    forall i | 0 <= i < |prog| :: Typed(objs, cells, prog[i])
  }

  predicate CellOk(objs: seq<Obj>, x: Option<nat>) {
    x.Some? ==> x.value < |objs| && (objs[x.value].Mutex? || objs[x.value].Resource?)
  }

  ghost predicate WF(s: State) {
    && |s.hist| == |s.objs|
    && (s.running.Some? ==> s.running.value < |s.procs|)
    && (forall c | 0 <= c < |s.cells| :: CellOk(s.objs, s.cells[c]))
    && (forall p | 0 <= p < |s.procs| :: ProgOk(s.objs, |s.cells|, s.procs[p].prog))
  }

  // ----- processes and events -----

  function SetStatus(s: State, p: nat, st: Status): State
    requires p < |s.procs|
  {
    s.(procs := s.procs[p := s.procs[p].(status := st)])
  }

  function SetProg(s: State, p: nat, prog: seq<Op>): State
    requires p < |s.procs|
  {
    s.(procs := s.procs[p := s.procs[p].(prog := prog)])
  }

  /** The running process gives up control. */
  function Yield(s: State, p: nat, st: Status): State
    requires p < |s.procs|
  {
    SetStatus(s, p, st).(running := None)
  }

  function WokenUp(p: Proc, o: nat, now: int): Proc {
    if p.status.Blocked? && p.status.o == o
    then p.(status := Queued(p.status.latency + now, Woken(o, p.status.latency, p.status.since)))
    else p
  }

  ghost function BlockedOn(procs: seq<Proc>, o: nat): set<nat> {
    set i: nat | i < |procs| && procs[i].status.Blocked? && procs[i].status.o == o
  }

  /** Schedules every token that is registered with the event of `o`. */
  ghost function WakeAll(s: State, o: nat): State
    requires o < |s.hist|
  {
    var h := s.hist[o];
    s.(procs := seq(|s.procs|, i requires 0 <= i < |s.procs| => WokenUp(s.procs[i], o, s.now)),
       hist := s.hist[o := h.(wakes := h.wakes + [s.now], scheduled := h.scheduled + |BlockedOn(s.procs, o)|)])
  }

  /** The running process suspends on the event of `o`. */
  function Block(s: State, p: nat, o: nat, latency: nat): State
    requires p < |s.procs| && o < |s.hist|
  {
    var h := s.hist[o];
    Yield(s, p, Blocked(o, latency, |h.wakes|)).(hist := s.hist[o := h.(registered := h.registered + 1)])
  }

  // ----- objects and handles -----

  function SetObj(s: State, o: nat, op: Op): State
    requires |s.hist| == |s.objs| && o < |s.objs| && Guarded(op) && Fits(s.objs[o], op) && Guard(s.objs[o], op)
  {
    s.(objs := s.objs[o := Change(s.objs[o], op)], hist := s.hist[o := Note(s.hist[o], s.objs[o], op)])
  }

  function SetCell(s: State, c: nat, x: Option<nat>): State
    requires c < |s.cells|
  {
    s.(cells := s.cells[c := x])
  }

  /** A handle with content `x` is destroyed, which does not release it. */
  function Dropped(s: State, x: Option<nat>): State
    requires x.Some? ==> x.value < |s.hist|
  {
    if x.None? then s
    else s.(hist := s.hist[x.value := s.hist[x.value].(dropped := s.hist[x.value].dropped + 1)])
  }

  /** `cell = handle`: the two are swapped, and what the cell held is destroyed. */
  function Store(s: State, c: nat, o: nat): State
    requires c < |s.cells| && (s.cells[c].Some? ==> s.cells[c].value < |s.hist|)
  {
    SetCell(Dropped(SetCell(s, c, None), s.cells[c]), c, Some(o))
  }

  // ----- one operation of the running process -----

  /** A guarded operation whose guard holds; taking a mutex wakes nobody. */
  ghost function Pass(s: State, p: nat, op: Op, rest: seq<Op>): State
    requires WF(s) && p < |s.procs| && Guarded(op) && Typed(s.objs, |s.cells|, op) && Guard(s.objs[op.o], op)
  {
    var s1 := SetObj(SetProg(s, p, rest), op.o, op);
    if op.Lock? then Store(s1, op.cell, op.o)
    else if op.Acquire? then Store(WakeAll(s1, op.o), op.cell, op.o)
    else WakeAll(s1, op.o)
  }

  ghost function ReleaseHandle(s: State, p: nat, c: nat, rest: seq<Op>): State
    requires WF(s) && p < |s.procs| && c < |s.cells|
  {
    assert CellOk(s.objs, s.cells[c]);
    if s.cells[c].None? then Yield(s, p, Failed)
    else
      var o := s.cells[c].value;
      var s1 := SetCell(s, c, None);
      if s.objs[o].Mutex?
      then WakeAll(SetProg(s1, p, rest).(objs := s.objs[o := Mutex(false)]), o)
      else SetProg(s1, p, [ReleaseUp(o)] + rest)
  }

  ghost function DoOp(s: State, p: nat): State
    requires WF(s) && p < |s.procs| && s.procs[p].prog != []
  {
    var op, rest := s.procs[p].prog[0], s.procs[p].prog[1..];
    assert ProgOk(s.objs, |s.cells|, s.procs[p].prog);
    assert Typed(s.objs, |s.cells|, op);
    if Guarded(op) then
      if Guard(s.objs[op.o], op) then Pass(s, p, op, rest) else Block(s, p, op.o, 0)
    else
      match op
      case Delay(d) => Yield(SetProg(s, p, rest), p, Queued(s.now + d, Timer))
      case Wait(o, latency) => Block(SetProg(s, p, rest), p, o, latency)
      case Wake(o) => WakeAll(SetProg(s, p, rest), o)
      case Move(c, t) => SetProg(s, p, rest).(cells := s.cells[c := s.cells[t]][t := s.cells[c]])
      case Drop(c) => assert CellOk(s.objs, s.cells[c]); Dropped(SetCell(SetProg(s, p, rest), c, None), s.cells[c])
      case Release(c) => ReleaseHandle(s, p, c, rest)
  }

  // ----- steps and runs -----

  ghost predicate IsNext(s: State, p: nat) {
    && p < |s.procs| && s.procs[p].status.Queued?
    && forall q | 0 <= q < |s.procs| && s.procs[q].status.Queued? ::
         s.procs[p].status.time <= s.procs[q].status.time
  }

  /** The clock moves to the token's time if that is later, and its process is resumed. */
  function Pop(s: State, p: nat): State
    requires p < |s.procs| && s.procs[p].status.Queued?
  {
    var t := s.procs[p].status.time;
    SetStatus(s, p, Running).(now := if t > s.now then t else s.now, running := Some(p))
  }

  /** The running process does its next operation, or, if none runs, `p` is resumed. */
  ghost predicate Step(s: State, p: nat, s': State) {
    && WF(s)
    && if s.running.None? then IsNext(s, p) && s' == Pop(s, p)
       else
         && p == s.running.value
         && s' == if s.procs[p].prog == [] then Yield(s, p, Ended) else DoOp(s, p)
  }

  /** Nothing is running, nothing can be resumed. */
  ghost predicate Quiescent(s: State) {
    s.running.None? && forall p | 0 <= p < |s.procs| :: !s.procs[p].status.Queued?
  }

  ghost predicate Leads(s: State, s': State) {
    exists p: nat :: Step(s, p, s')
  }

  /** `run[0]` is the start, and every state follows by a step from the one before. */
  ghost predicate Run(run: seq<State>) {
    && |run| > 0
    && forall i | 0 <= i < |run| - 1 :: Leads(run[i], run[i + 1])
  }

  /** A freshly built system: nothing acquired, every process about to start. */
  ghost predicate Fresh(s: State) {
    && WF(s) && s.running.None?
    && (forall c | 0 <= c < |s.cells| :: s.cells[c] == None)
    && (forall o | 0 <= o < |s.objs| :: FreshObj(s.objs[o], s.hist[o]))
    && (forall p | 0 <= p < |s.procs| :: FreshProc(s.procs[p], s.now))
  }

  ghost predicate FreshObj(b: Obj, h: History) {
    && h == History(if b.Semaphore? then b.value else 0, 0, 0, [], [], 0, [], 0, 0)
    && (b.Mutex? ==> !b.owned)
    && (b.Resource? ==> b.free == b.count)
    && (b.Queue? ==> b.items == [])
  }

  ghost predicate FreshProc(p: Proc, now: int) {
    && p.status.Queued? && p.status.origin.Timer? && p.status.time >= now
    && forall i | 0 <= i < |p.prog| :: !p.prog[i].ReleaseUp?
  }

  ghost predicate Reachable(s: State) {
    exists run :: Run(run) && Fresh(run[0]) && run[|run| - 1] == s
  }
}
